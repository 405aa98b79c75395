/** The `[ui]` table editor of the host configuration.

    The scanner cuts the lines of a file into chunks: headers, assignments of
    the `[ui]` table and its sub-tables (which may run over several lines), and
    everything else.  The editor rewrites assignments by the line ranges of a
    first scan and splices new ones in at a line number of the old text.
 */
module UiTable {
  import opened TomlText

  datatype Chunk =
    | Header(line: string, name: string)
    | Other(line: string)
    | Pair(section: string, key: string, value: string, lines: seq<string>)

  /** The two line patterns, when a value text is complete, how it is read, which
      texts are numbers, and the names every object inherits. */
  datatype Host = Host(header: string -> Option<string>, pair: string -> Option<(string, string)>, balanced: string -> bool,
                       read: string -> Value, number: string -> bool, inherited: set<string>)

  /** What the two line patterns make of lines that the editor itself writes, and
      what is a key and a newline to them. */
  ghost predicate PatternsOk(h: Host) {
    && h.header("[ui]") == Some("ui") && h.header("") == None && h.pair("") == None
    && (forall l :: h.pair(l).Some? ==> IsKey(h.pair(l).value.0))
    && (forall t :: h.balanced(t + "\n") == h.balanced(t))
    && (forall key, text :: IsKey(key) && StartsSolid(text) ==>
          && h.header(Assignment(key, text)) == None
          && h.pair(Assignment(key, text)) == if HasTerminator(text) then None else Some((key, text)))
  }

  /** The reader undoes the serializer on scalars and takes a bare word as itself. */
  ghost predicate HostOk(h: Host) {
    && PatternsOk(h) && NumberTexts(h.number)
    && (forall v :: Scalar(h.number, v) ==> h.read(Serialize(v)) == v && h.balanced(Serialize(v)))
    && h.read("undefined") == Str("undefined") && h.balanced("undefined")
  }

  /** The patterns and the reader that the editor has. */
  function TomlHost(json: string -> Option<Value>, number: string -> bool, inherited: set<string>): Host {
    Host(l => HeaderOf(l), l => PairOf(l), t => Balanced(t), t => ParseValue(json, t), number, inherited)
  }

  lemma TomlPatternsOk(h: Host)
    requires h.header == (l => HeaderOf(l)) && h.pair == (l => PairOf(l)) && h.balanced == (t => Balanced(t))
    ensures PatternsOk(h)
  {
    UiHeaderReads();
    forall l | PairOf(l).Some? ensures IsKey(PairOf(l).value.0) {
      KeyPrefixIsKey(SkipSpace(l));
    }
    forall t: string ensures Balanced(t + "\n") == Balanced(t) {
      NewlineKeepsBalance(t);
    }
    forall key, text | IsKey(key) && StartsSolid(text)
      ensures HeaderOf(Assignment(key, text)) == None
      ensures PairOf(Assignment(key, text)) == if HasTerminator(text) then None else Some((key, text))
    {
      AssignmentReads(key, text);
    }
  }

  lemma TomlHostOk(json: string -> Option<Value>, number: string -> bool, inherited: set<string>)
    requires LibraryOk(json, number)
    ensures HostOk(TomlHost(json, number, inherited))
  {
    TomlPatternsOk(TomlHost(json, number, inherited));
    forall v | Scalar(number, v) ensures ParseValue(json, Serialize(v)) == v && Balanced(Serialize(v)) {
      ValueRoundTrip(json, number, v);
      SerializedShape(number, v);
    }
    BareWord(json, "undefined");
    PlainShape("undefined");
  }

  type Updates = map<string, Value>
  type Table = map<string, Value>

  // ---------------------------------------------------------------- scanning

  predicate InUi(section: string) {
    section == "ui" || "ui." <= section
  }

  /** How many further lines a value takes: until it is balanced or the text ends. */
  function Extent(h: Host, value: string, rest: seq<string>): (n: nat)
    ensures n <= |rest|
    decreases |rest|
  {
    if h.balanced(value) || rest == [] then 0 else 1 + Extent(h, value + "\n" + rest[0], rest[1..])
  }

  function Grown(value: string, more: seq<string>): string
    decreases |more|
  {
    if more == [] then value else Grown(value + "\n" + more[0], more[1..])
  }

  function ChunkAt(h: Host, section: string, lines: seq<string>): Chunk
    requires lines != []
  {
    match h.header(lines[0])
    case Some(name) => Header(lines[0], name)
    case None =>
      match if InUi(section) then h.pair(lines[0]) else None
      case None => Other(lines[0])
      case Some((key, value)) =>
        var n := 1 + Extent(h, value, lines[1..]);
        Pair(section, key, Grown(value, lines[1..n]), lines[..n])
  }

  function LinesOf(c: Chunk): seq<string> {
    match c
    case Header(line, _) => [line]
    case Other(line) => [line]
    case Pair(_, _, _, lines) => lines
  }

  function Enter(section: string, c: Chunk): string {
    if c.Header? then c.name else section
  }

  function Chunks(h: Host, section: string, lines: seq<string>): seq<Chunk>
    decreases |lines|
  {
    if lines == [] then []
    else
      var c := ChunkAt(h, section, lines);
      [c] + Chunks(h, Enter(section, c), lines[|LinesOf(c)|..])
  }

  function Flatten(cs: seq<Chunk>): seq<string> {
    if cs == [] then [] else LinesOf(cs[0]) + Flatten(cs[1..])
  }

  /** The section in force after the chunks. */
  function Leave(section: string, cs: seq<Chunk>): string
    decreases |cs|
  {
    if cs == [] then section else Leave(Enter(section, cs[0]), cs[1..])
  }

  // ---------------------------------------------------------------- what a scan yields

  function UiPart(read: string -> Value, c: Chunk): Table {
    if c.Pair? && c.section == "ui" then map[c.key := read(c.value)] else map[]
  }

  /** The `[ui]` table; the last assignment of a key wins. */
  function Ui(read: string -> Value, cs: seq<Chunk>): Table {
    if cs == [] then map[] else UiPart(read, cs[0]) + Ui(read, cs[1..])
  }

  type Tables = map<string, Table>

  function Put(read: string -> Value, t: Tables, c: Chunk): Tables {
    if c.Pair? && "ui." <= c.section then
      var sub := c.section[3..];
      t[sub := (if sub in t then t[sub] else map[])[c.key := read(c.value)]]
    else t
  }

  /** The `[ui.<sub>]` tables, added to t. */
  function SubTables(read: string -> Value, t: Tables, cs: seq<Chunk>): Tables
    decreases |cs|
  {
    if cs == [] then t else SubTables(read, Put(read, t, cs[0]), cs[1..])
  }

  predicate IsUiPair(c: Chunk) {
    c.Pair? && c.section == "ui"
  }

  predicate IsUiHeader(c: Chunk) {
    c.Header? && c.name == "ui"
  }

  predicate HasUi(cs: seq<Chunk>) {
    exists c :: c in cs && IsUiHeader(c)
  }

  /** Where the first `[ui]` section ends: at the next header, or at the end. */
  function UiEnd(section: string, cs: seq<Chunk>): (e: nat)
    ensures e <= |cs|
    decreases |cs|
  {
    if cs == [] || (section == "ui" && cs[0].Header?) then 0 else 1 + UiEnd(Enter(section, cs[0]), cs[1..])
  }

  // ---------------------------------------------------------------- chunks that scan as themselves

  /** The value becomes balanced with the last of these lines and not before. */
  predicate Closes(h: Host, value: string, more: seq<string>)
    decreases |more|
  {
    if more == [] then h.balanced(value) else !h.balanced(value) && Closes(h, value + "\n" + more[0], more[1..])
  }

  predicate Fits(h: Host, section: string, c: Chunk) {
    match c
    case Header(line, name) => h.header(line) == Some(name)
    case Other(line) => h.header(line) == None && (InUi(section) ==> h.pair(line) == None)
    case Pair(sec, key, value, lines) =>
      && sec == section && InUi(section) && lines != [] && h.header(lines[0]) == None && h.pair(lines[0]).Some?
      && key == h.pair(lines[0]).value.0
      && value == Grown(h.pair(lines[0]).value.1, lines[1..])
      && Closes(h, h.pair(lines[0]).value.1, lines[1..])
  }

  predicate WellCut(h: Host, section: string, cs: seq<Chunk>)
    decreases |cs|
  {
    cs == [] || (Fits(h, section, cs[0]) && WellCut(h, Enter(section, cs[0]), cs[1..]))
  }

  /** Every assignment of the table is balanced. */
  predicate WellFormed(h: Host, lines: seq<string>) {
    AllBalanced(h, Chunks(h, "", lines))
  }

  lemma {:induction false} ExtentOfClosing(h: Host, value: string, more: seq<string>, rest: seq<string>)
    requires Closes(h, value, more)
    ensures Extent(h, value, more + rest) == |more|
    decreases |more|
  {
    if more != [] {
      assert (more + rest)[1..] == more[1..] + rest;
      ExtentOfClosing(h, value + "\n" + more[0], more[1..], rest);
    }
  }

  lemma {:induction false} ClosingOfExtent(h: Host, value: string, rest: seq<string>)
    requires h.balanced(Grown(value, rest[..Extent(h, value, rest)]))
    ensures Closes(h, value, rest[..Extent(h, value, rest)])
    decreases |rest|
  {
    if !h.balanced(value) && rest != [] {
      var n := Extent(h, value, rest);
      assert rest[..n][1..] == rest[1..][..n - 1];
      ClosingOfExtent(h, value + "\n" + rest[0], rest[1..]);
    }
  }

  lemma ChunkAtOfFitting(h: Host, section: string, c: Chunk, rest: seq<string>)
    requires Fits(h, section, c)
    ensures LinesOf(c) != [] && ChunkAt(h, section, LinesOf(c) + rest) == c
  {
    if c.Pair? {
      var lines := c.lines + rest;
      assert lines[1..] == c.lines[1..] + rest;
      ExtentOfClosing(h, h.pair(c.lines[0]).value.1, c.lines[1..], rest);
      assert lines[1..|c.lines|] == c.lines[1..] && lines[..|c.lines|] == c.lines;
    }
  }

  /** A well-cut list is what scanning its lines gives. */
  lemma {:induction false} WellCutScans(h: Host, section: string, cs: seq<Chunk>)
    requires WellCut(h, section, cs)
    ensures Chunks(h, section, Flatten(cs)) == cs
    decreases |cs|
  {
    if cs != [] {
      ChunkAtOfFitting(h, section, cs[0], Flatten(cs[1..]));
      WellCutScans(h, Enter(section, cs[0]), cs[1..]);
      assert Flatten(cs)[|LinesOf(cs[0])|..] == Flatten(cs[1..]);
    }
  }

  lemma ChunkAtFits(h: Host, section: string, lines: seq<string>)
    requires lines != []
    ensures var c := ChunkAt(h, section, lines); 0 < |LinesOf(c)| <= |lines| && LinesOf(c) == lines[..|LinesOf(c)|]
    ensures var c := ChunkAt(h, section, lines); (c.Pair? ==> h.balanced(c.value)) ==> Fits(h, section, c)
  {
    var c := ChunkAt(h, section, lines);
    if c.Pair? {
      var value := h.pair(lines[0]).value.1;
      var n := Extent(h, value, lines[1..]);
      assert lines[1..][..n] == lines[1..1 + n] == c.lines[1..];
      if h.balanced(c.value) {
        ClosingOfExtent(h, value, lines[1..]);
      }
    }
  }

  predicate AllBalanced(h: Host, cs: seq<Chunk>) {
    forall c :: c in cs && c.Pair? ==> h.balanced(c.value)
  }

  /** Scanning loses no line. */
  lemma {:induction false} ScanKeepsLines(h: Host, section: string, lines: seq<string>)
    ensures Flatten(Chunks(h, section, lines)) == lines
    decreases |lines|
  {
    if lines != [] {
      ChunkAtFits(h, section, lines);
      var c := ChunkAt(h, section, lines);
      ScanKeepsLines(h, Enter(section, c), lines[|LinesOf(c)|..]);
    }
  }

  /** Scanning cuts well when everything is balanced. */
  lemma {:induction false} ScanCuts(h: Host, section: string, lines: seq<string>)
    requires AllBalanced(h, Chunks(h, section, lines))
    ensures WellCut(h, section, Chunks(h, section, lines))
    decreases |lines|
  {
    if lines != [] {
      ChunkAtFits(h, section, lines);
      var c := ChunkAt(h, section, lines);
      var rest := Chunks(h, Enter(section, c), lines[|LinesOf(c)|..]);
      var cs := Chunks(h, section, lines);
      assert cs[0] == c && cs[1..] == rest;
      assert cs[0] in cs && forall x :: x in cs[1..] ==> x in cs;
      ScanCuts(h, Enter(section, c), lines[|LinesOf(c)|..]);
    }
  }

  // ---------------------------------------------------------------- lists of chunks

  lemma {:induction false} Concat(h: Host, section: string, a: seq<Chunk>, b: seq<Chunk>)
    ensures Flatten(a + b) == Flatten(a) + Flatten(b)
    ensures Leave(section, a + b) == Leave(Leave(section, a), b)
    ensures WellCut(h, section, a + b) <==> WellCut(h, section, a) && WellCut(h, Leave(section, a), b)
    decreases |a|
  {
    if a == [] {
      assert a + b == b;
    } else {
      Concat(h, Enter(section, a[0]), a[1..], b);
      assert (a + b)[1..] == a[1..] + b;
    }
  }

  lemma {:induction false} UiConcat(read: string -> Value, a: seq<Chunk>, b: seq<Chunk>)
    ensures Ui(read, a + b) == Ui(read, a) + Ui(read, b)
  {
    if a == [] {
      assert a + b == b;
    } else {
      UiConcat(read, a[1..], b);
      assert (a + b)[1..] == a[1..] + b;
      MergeAssociates(UiPart(read, a[0]), Ui(read, a[1..]), Ui(read, b));
    }
  }

  lemma MergeAssociates(x: Table, y: Table, z: Table)
    ensures x + (y + z) == (x + y) + z
  {
  }

  lemma {:induction false} SubTablesConcat(read: string -> Value, t: Tables, a: seq<Chunk>, b: seq<Chunk>)
    ensures SubTables(read, t, a + b) == SubTables(read, SubTables(read, t, a), b)
    decreases |a|
  {
    if a == [] {
      assert a + b == b;
    } else {
      assert (a + b)[1..] == a[1..] + b && (a + b)[0] == a[0];
      SubTablesConcat(read, Put(read, t, a[0]), a[1..], b);
    }
  }

  // ---------------------------------------------------------------- rewriting

  /** What the editor writes for a key that is `in` the update object. */
  function NewText(h: Host, us: Updates, key: string): Option<string> {
    if key in us then Some(Serialize(us[key]))
    else if key in h.inherited then Some("undefined")
    else None
  }

  /** How the line `key = text` scans in the `[ui]` section. */
  function Written(key: string, text: string): Chunk {
    if HasTerminator(text) then Other(Assignment(key, text)) else Pair("ui", key, text, [Assignment(key, text)])
  }

  predicate Rewrites(h: Host, us: Updates, c: Chunk) {
    IsUiPair(c) && NewText(h, us, c.key).Some?
  }

  function Rewritten(h: Host, us: Updates, c: Chunk): Chunk {
    if Rewrites(h, us, c) then Written(c.key, NewText(h, us, c.key).value) else c
  }

  function RewriteAll(h: Host, us: Updates, cs: seq<Chunk>): (r: seq<Chunk>)
    ensures |r| == |cs|
  {
    if cs == [] then [] else [Rewritten(h, us, cs[0])] + RewriteAll(h, us, cs[1..])
  }

  predicate IsUiKey(cs: seq<Chunk>, key: string) {
    exists c :: c in cs && IsUiPair(c) && c.key == key
  }

  /** The updated keys that no assignment of the table has, in order. */
  function Pending(cs: seq<Chunk>, order: seq<string>): (p: seq<string>)
    ensures forall k :: k in p <==> k in order && !IsUiKey(cs, k)
  {
    if order == [] then []
    else
      var rest := Pending(cs, order[1..]);
      assert order == [order[0]] + order[1..];
      if IsUiKey(cs, order[0]) then rest else [order[0]] + rest
  }

  function Block(us: Updates, keys: seq<string>): seq<Chunk>
    requires forall k :: k in keys ==> k in us
  {
    if keys == [] then [] else [Written(keys[0], Serialize(us[keys[0]]))] + Block(us, keys[1..])
  }

  /** A new header, after a blank line where there is none. */
  function NewHeader(lines: seq<string>): seq<Chunk> {
    (if lines != [] && lines[|lines| - 1] != "" then [Other("")] else []) + [Header("[ui]", "ui")]
  }

  /** What the edited file should be: assignments rewritten in place, new ones at
      the end of the first `[ui]` section. */
  function Intended(h: Host, us: Updates, order: seq<string>, cs: seq<Chunk>): seq<Chunk>
    requires forall k :: k in order ==> k in us
  {
    var r := RewriteAll(h, us, cs);
    var p := Pending(cs, order);
    if p == [] then r
    else if HasUi(cs) then r[..UiEnd("", cs)] + Block(us, p) + r[UiEnd("", cs)..]
    else r + NewHeader(Flatten(r)) + Block(us, p)
  }

  // ---------------------------------------------------------------- the editor as it splices

  datatype Entry = Entry(key: string, value: Value, start: nat, end: int)

  function EntryOf(read: string -> Value, i: nat, c: Chunk): Entry
    requires IsUiPair(c)
  {
    Entry(c.key, read(c.value), i, i + |c.lines| - 1)
  }

  function OwnEntry(read: string -> Value, i: nat, c: Chunk): seq<Entry> {
    if IsUiPair(c) then [EntryOf(read, i, c)] else []
  }

  /** The recorded line ranges of the table's assignments, the first chunk starting at line i. */
  function EntriesAt(read: string -> Value, i: nat, cs: seq<Chunk>): seq<Entry>
    decreases |cs|
  {
    if cs == [] then [] else OwnEntry(read, i, cs[0]) + EntriesAt(read, i + |LinesOf(cs[0])|, cs[1..])
  }

  function Find(entries: seq<Entry>, i: nat): Option<Entry> {
    if entries == [] then None
    else if entries[0].start == i then Some(entries[0])
    else Find(entries[1..], i)
  }

  /** The lines from i on, with each rewritten entry in place of its range. */
  function OutFrom(h: Host, us: Updates, lines: seq<string>, entries: seq<Entry>, i: nat): seq<string>
    decreases |lines| - i
  {
    if i >= |lines| then []
    else
      match Find(entries, i)
      case Some(e) =>
        if NewText(h, us, e.key).Some? then
          [Assignment(e.key, NewText(h, us, e.key).value)] + OutFrom(h, us, lines, entries, if e.end < i then i + 1 else e.end + 1)
        else [lines[i]] + OutFrom(h, us, lines, entries, i + 1)
      case None => [lines[i]] + OutFrom(h, us, lines, entries, i + 1)
  }

  function Splice(out: seq<string>, at: nat, block: seq<string>): seq<string> {
    if at <= |out| then out[..at] + block + out[at..] else out + block
  }

  function BlockLines(us: Updates, keys: seq<string>): seq<string>
    requires forall k :: k in keys ==> k in us
  {
    if keys == [] then [] else [Assignment(keys[0], Serialize(us[keys[0]]))] + BlockLines(us, keys[1..])
  }

  /** The line at which the first `[ui]` section ends in the text that was scanned. */
  function SectionEnd(cs: seq<Chunk>): nat {
    |Flatten(cs[..UiEnd("", cs)])|
  }

  function UpdateLines(h: Host, us: Updates, order: seq<string>, lines: seq<string>): seq<string>
    requires forall k :: k in order ==> k in us
  {
    var cs := Chunks(h, "", lines);
    var out := OutFrom(h, us, lines, EntriesAt(h.read, 0, cs), 0);
    var p := Pending(cs, order);
    if p == [] then out
    else if HasUi(cs) then Splice(out, SectionEnd(cs), BlockLines(us, p))
    else out + Flatten(NewHeader(out)) + BlockLines(us, p)
  }

  function Update(h: Host, us: Updates, order: seq<string>, text: string): string
    requires forall k :: k in order ==> k in us
  {
    TrimNewlines(Join(UpdateLines(h, us, order, Split(text)))) + "\n"
  }

  // ---------------------------------------------------------------- the splice meets the intention

  /** Entries before line i do not matter from line i on. */
  lemma {:induction false} FindSkips(before: seq<Entry>, after: seq<Entry>, i: nat)
    requires forall e :: e in before ==> e.start < i
    ensures Find(before + after, i) == Find(after, i)
  {
    if before == [] {
      assert before + after == after;
    } else {
      assert before[0] in before;
      assert (before + after)[1..] == before[1..] + after;
      FindSkips(before[1..], after, i);
    }
  }

  lemma {:induction false} EntriesAreAhead(read: string -> Value, base: nat, cs: seq<Chunk>)
    ensures forall e :: e in EntriesAt(read, base, cs) ==> e.start >= base
    decreases |cs|
  {
    if cs != [] {
      EntriesAreAhead(read, base + |LinesOf(cs[0])|, cs[1..]);
    }
  }

  lemma {:induction false} NothingToFind(entries: seq<Entry>, i: nat)
    requires forall e :: e in entries ==> e.start > i
    ensures Find(entries, i) == None
  {
    if entries != [] {
      assert entries[0] in entries;
      NothingToFind(entries[1..], i);
    }
  }

  /** Lines that start no entry are copied. */
  lemma {:induction false} CopiesUpTo(h: Host, us: Updates, lines: seq<string>, entries: seq<Entry>, i: nat, j: nat)
    requires i <= j <= |lines| && forall k :: i <= k < j ==> Find(entries, k) == None
    ensures OutFrom(h, us, lines, entries, i) == lines[i..j] + OutFrom(h, us, lines, entries, j)
    decreases j - i
  {
    if i < j {
      assert lines[i..j] == [lines[i]] + lines[i + 1..j];
      CopiedOut(h, us, lines, entries, i);
      CopiesUpTo(h, us, lines, entries, i + 1, j);
    }
  }

  /** The entry of an assignment is found at its first line, and nothing on its other lines. */
  predicate FoundAt(read: string -> Value, entries: seq<Entry>, i: nat, c: Chunk) {
    && Find(entries, i) == (if IsUiPair(c) then Some(EntryOf(read, i, c)) else None)
    && forall k :: i < k < i + |LinesOf(c)| ==> Find(entries, k) == None
  }

  lemma FoundFirst(read: string -> Value, i: nat, c: Chunk, later: seq<Entry>)
    requires LinesOf(c) != [] && forall e :: e in later ==> e.start >= i + |LinesOf(c)|
    ensures FoundAt(read, OwnEntry(read, i, c) + later, i, c)
  {
    var own := OwnEntry(read, i, c);
    if own == [] {
      assert own + later == later;
      NothingToFind(later, i);
    } else {
      assert (own + later)[0] == EntryOf(read, i, c);
    }
    forall k | i < k < i + |LinesOf(c)| ensures Find(own + later, k) == None {
      FindSkips(own, later, k);
      NothingToFind(later, k);
    }
  }

  lemma FoundBehind(read: string -> Value, i: nat, first: Chunk, later: seq<Entry>, at: nat, c: Chunk)
    requires FoundAt(read, later, at, c) && at > i
    ensures FoundAt(read, OwnEntry(read, i, first) + later, at, c)
  {
    var own := OwnEntry(read, i, first);
    FindSkips(own, later, at);
    forall k | at < k < at + |LinesOf(c)| ensures Find(own + later, k) == None {
      FindSkips(own, later, k);
    }
  }

  predicate AllHaveLines(cs: seq<Chunk>) {
    forall c :: c in cs ==> LinesOf(c) != []
  }

  lemma TailHasLines(cs: seq<Chunk>)
    requires cs != [] && AllHaveLines(cs)
    ensures LinesOf(cs[0]) != [] && AllHaveLines(cs[1..])
  {
    assert cs[0] in cs && forall x :: x in cs[1..] ==> x in cs;
  }

  lemma WrittenLine(key: string, text: string)
    ensures LinesOf(Written(key, text)) == [Assignment(key, text)]
  {
  }

  lemma RewrittenOut(h: Host, us: Updates, lines: seq<string>, entries: seq<Entry>, i: nat, e: Entry)
    requires i < |lines| && Find(entries, i) == Some(e) && e.end >= i && NewText(h, us, e.key).Some?
    ensures OutFrom(h, us, lines, entries, i) ==
      [Assignment(e.key, NewText(h, us, e.key).value)] + OutFrom(h, us, lines, entries, e.end + 1)
  {
  }

  lemma CopiedOut(h: Host, us: Updates, lines: seq<string>, entries: seq<Entry>, i: nat)
    requires i < |lines| && (Find(entries, i).Some? ==> NewText(h, us, Find(entries, i).value.key).None?)
    ensures OutFrom(h, us, lines, entries, i) == [lines[i]] + OutFrom(h, us, lines, entries, i + 1)
  {
  }

  /** One chunk at line i: its rewritten lines come out, and the pass goes on behind it. */
  lemma OneChunkOut(h: Host, us: Updates, lines: seq<string>, entries: seq<Entry>, i: nat, c: Chunk, n: nat)
    requires n == |LinesOf(c)| > 0 && i + n <= |lines| && lines[i..i + n] == LinesOf(c)
    requires FoundAt(h.read, entries, i, c)
    ensures OutFrom(h, us, lines, entries, i) == LinesOf(Rewritten(h, us, c)) + OutFrom(h, us, lines, entries, i + n)
  {
    if Rewrites(h, us, c) {
      var e := EntryOf(h.read, i, c);
      assert Find(entries, i) == Some(e) && e.end + 1 == i + n;
      RewrittenOut(h, us, lines, entries, i, e);
      WrittenLine(c.key, NewText(h, us, c.key).value);
    } else {
      ChunkCopied(h, us, lines, entries, i, n);
    }
  }

  lemma ChunkCopied(h: Host, us: Updates, lines: seq<string>, entries: seq<Entry>, i: nat, n: nat)
    requires 0 < n && i + n <= |lines|
    requires Find(entries, i).Some? ==> NewText(h, us, Find(entries, i).value.key).None?
    requires forall k :: i < k < i + n ==> Find(entries, k) == None
    ensures OutFrom(h, us, lines, entries, i) == lines[i..i + n] + OutFrom(h, us, lines, entries, i + n)
  {
    CopiedOut(h, us, lines, entries, i);
    CopiesUpTo(h, us, lines, entries, i + 1, i + n);
    assert [lines[i]] + lines[i + 1..i + n] == lines[i..i + n];
  }

  /** From line i on, the lines are those of the chunks and the entries are found where they are. */
  predicate Matches(read: string -> Value, lines: seq<string>, entries: seq<Entry>, i: nat, cs: seq<Chunk>)
    decreases |cs|
  {
    if cs == [] then i == |lines|
    else
      var n := |LinesOf(cs[0])|;
      && n > 0 && i + n <= |lines| && lines[i..i + n] == LinesOf(cs[0])
      && FoundAt(read, entries, i, cs[0])
      && Matches(read, lines, entries, i + n, cs[1..])
  }

  /** An entry that starts earlier changes nothing from line i on. */
  lemma {:induction false} MatchesBehind(read: string -> Value, lines: seq<string>, at: nat, first: Chunk, later: seq<Entry>, i: nat, cs: seq<Chunk>)
    requires Matches(read, lines, later, i, cs) && at < i
    ensures Matches(read, lines, OwnEntry(read, at, first) + later, i, cs)
    decreases |cs|
  {
    if cs != [] {
      var n := |LinesOf(cs[0])|;
      FoundBehind(read, at, first, later, i, cs[0]);
      MatchesBehind(read, lines, at, first, later, i + n, cs[1..]);
    }
  }

  lemma {:induction false} ScanMatches(read: string -> Value, lines: seq<string>, i: nat, cs: seq<Chunk>, entries: seq<Entry>)
    requires i <= |lines| && lines[i..] == Flatten(cs) && AllHaveLines(cs) && entries == EntriesAt(read, i, cs)
    ensures Matches(read, lines, entries, i, cs)
    decreases |cs|
  {
    if cs == [] {
      assert |lines[i..]| == 0;
    } else {
      var n, rest := |LinesOf(cs[0])|, cs[1..];
      var later := EntriesAt(read, i + n, rest);
      FlattenHead(lines, i, cs, n);
      TailHasLines(cs);
      ScanMatches(read, lines, i + n, rest, later);
      FoundAhead(read, i, cs[0], n, rest, later);
      ScanMatchesStep(read, lines, i, cs[0], n, rest, cs, later, entries);
    }
  }

  lemma FoundAhead(read: string -> Value, i: nat, c: Chunk, n: nat, rest: seq<Chunk>, later: seq<Entry>)
    requires n == |LinesOf(c)| > 0 && later == EntriesAt(read, i + n, rest)
    ensures FoundAt(read, OwnEntry(read, i, c) + later, i, c)
  {
    EntriesAreAhead(read, i + n, rest);
    FoundFirst(read, i, c, later);
  }

  lemma ScanMatchesStep(read: string -> Value, lines: seq<string>, i: nat, c: Chunk, n: nat, rest: seq<Chunk>, cs: seq<Chunk>, later: seq<Entry>, entries: seq<Entry>)
    requires cs != [] && cs[0] == c && cs[1..] == rest && n == |LinesOf(c)| > 0 && i + n <= |lines| && lines[i..i + n] == LinesOf(c)
    requires entries == OwnEntry(read, i, c) + later && Matches(read, lines, later, i + n, rest) && FoundAt(read, entries, i, c)
    ensures Matches(read, lines, entries, i, cs)
  {
    MatchesBehind(read, lines, i, c, later, i + n, rest);
  }

  lemma FlattenHead(lines: seq<string>, i: nat, cs: seq<Chunk>, n: nat)
    requires i <= |lines| && cs != [] && lines[i..] == Flatten(cs) && n == |LinesOf(cs[0])|
    ensures i + n <= |lines| && lines[i..i + n] == LinesOf(cs[0]) && lines[i + n..] == Flatten(cs[1..])
  {
    assert lines[i..][..n] == lines[i..i + n] && lines[i..][n..] == lines[i + n..];
  }

  /** The second pass, driven by the recorded ranges, rewrites chunk by chunk. */
  lemma {:induction false} OutIsRewriteAll(h: Host, us: Updates, lines: seq<string>, entries: seq<Entry>, i: nat, cs: seq<Chunk>)
    requires Matches(h.read, lines, entries, i, cs)
    ensures OutFrom(h, us, lines, entries, i) == Flatten(RewriteAll(h, us, cs))
    decreases |cs|
  {
    if cs != [] {
      var n := |LinesOf(cs[0])|;
      OneChunkOut(h, us, lines, entries, i, cs[0], n);
      OutIsRewriteAll(h, us, lines, entries, i + n, cs[1..]);
      FlattenRewritten(h, us, cs);
    }
  }

  lemma FlattenRewritten(h: Host, us: Updates, cs: seq<Chunk>)
    requires cs != []
    ensures Flatten(RewriteAll(h, us, cs)) == LinesOf(Rewritten(h, us, cs[0])) + Flatten(RewriteAll(h, us, cs[1..]))
  {
    assert RewriteAll(h, us, cs)[1..] == RewriteAll(h, us, cs[1..]);
  }

  lemma {:induction false} ScanHasLines(h: Host, section: string, lines: seq<string>)
    ensures AllHaveLines(Chunks(h, section, lines))
    decreases |lines|
  {
    if lines != [] {
      ChunkAtFits(h, section, lines);
      var c := ChunkAt(h, section, lines);
      ScanHasLines(h, Enter(section, c), lines[|LinesOf(c)|..]);
    }
  }

  lemma OutOfScan(h: Host, us: Updates, lines: seq<string>)
    ensures var cs := Chunks(h, "", lines);
      OutFrom(h, us, lines, EntriesAt(h.read, 0, cs), 0) == Flatten(RewriteAll(h, us, cs))
  {
    var cs := Chunks(h, "", lines);
    ScanKeepsLines(h, "", lines);
    ScanHasLines(h, "", lines);
    ScanMatches(h.read, lines, 0, cs, EntriesAt(h.read, 0, cs));
    OutIsRewriteAll(h, us, lines, EntriesAt(h.read, 0, cs), 0, cs);
  }

  lemma {:induction false} BlockFlattens(us: Updates, keys: seq<string>)
    requires forall k :: k in keys ==> k in us
    ensures Flatten(Block(us, keys)) == BlockLines(us, keys)
  {
    if keys != [] {
      assert keys[0] in keys;
      BlockFlattens(us, keys[1..]);
    }
  }

  lemma OneShrinks(h: Host, us: Updates, c: Chunk)
    requires LinesOf(c) != []
    ensures |LinesOf(Rewritten(h, us, c))| <= |LinesOf(c)|
    ensures |LinesOf(Rewritten(h, us, c))| == |LinesOf(c)| <==> (Rewrites(h, us, c) ==> |c.lines| == 1)
  {
  }

  /** Rewriting a multi-line assignment makes the text shorter. */
  lemma {:induction false} RewriteShrinks(h: Host, us: Updates, cs: seq<Chunk>)
    requires AllHaveLines(cs)
    ensures |Flatten(RewriteAll(h, us, cs))| <= |Flatten(cs)|
    ensures |Flatten(RewriteAll(h, us, cs))| == |Flatten(cs)| <==>
      forall c :: c in cs && Rewrites(h, us, c) ==> |c.lines| == 1
  {
    if cs != [] {
      var rest := cs[1..];
      assert cs[0] in cs && forall x :: x in rest ==> x in cs;
      assert forall x :: x in cs ==> x == cs[0] || x in rest;
      RewriteShrinks(h, us, rest);
      FlattenRewritten(h, us, cs);
      OneShrinks(h, us, cs[0]);
    }
  }

  lemma {:induction false} RewritePrefix(h: Host, us: Updates, a: seq<Chunk>, b: seq<Chunk>)
    ensures RewriteAll(h, us, a + b) == RewriteAll(h, us, a) + RewriteAll(h, us, b)
  {
    if a == [] {
      assert a + b == b;
    } else {
      RewritePrefix(h, us, a[1..], b);
      assert (a + b)[1..] == a[1..] + b;
    }
  }

  /** New keys go in at a line number of the old text while an assignment above
      that line loses lines: there are new keys, a header follows the table, and
      a rewritten assignment of the table runs over several lines. */
  predicate Shifted(h: Host, us: Updates, order: seq<string>, cs: seq<Chunk>) {
    var e := UiEnd("", cs);
    && Pending(cs, order) != [] && HasUi(cs) && e < |cs|
    && exists c :: c in cs[..e] && Rewrites(h, us, c) && |c.lines| > 1
  }

  // ---------------------------------------------------------------- what the save validates

  /** Keys and values that pass the checks made before a save. */
  predicate ValidUpdates(h: Host, us: Updates, order: seq<string>) {
    && (forall k :: k in order ==> k in us) && (forall k :: k in us ==> k in order)
    && (forall k :: k in us ==> IsKey(k) && '.' !in k && Scalar(h.number, us[k]))
  }

  /** Facts every scanned chunk has. */
  predicate Scanned(h: Host, c: Chunk) {
    && (c.Header? ==> h.header(c.line) == Some(c.name))
    && (c.Pair? ==> IsKey(c.key))
  }

  lemma ChunkAtScanned(h: Host, section: string, lines: seq<string>)
    requires lines != [] && PatternsOk(h)
    ensures Scanned(h, ChunkAt(h, section, lines))
  {
  }

  lemma {:induction false} ScanScanned(h: Host, section: string, lines: seq<string>)
    requires PatternsOk(h)
    ensures forall c :: c in Chunks(h, section, lines) ==> Scanned(h, c)
    decreases |lines|
  {
    if lines != [] {
      ChunkAtScanned(h, section, lines);
      ChunkAtFits(h, section, lines);
      var c := ChunkAt(h, section, lines);
      ScanScanned(h, Enter(section, c), lines[|LinesOf(c)|..]);
    }
  }

  /** The first `[ui]` section ends inside section `ui`, in front of a header if anything follows. */
  lemma {:induction false} UiEndIsUi(section: string, cs: seq<Chunk>)
    requires section == "ui" || HasUi(cs)
    ensures Leave(section, cs[..UiEnd(section, cs)]) == "ui"
    ensures UiEnd(section, cs) < |cs| ==> cs[UiEnd(section, cs)].Header?
    decreases |cs|
  {
    if cs != [] && !(section == "ui" && cs[0].Header?) {
      var inside := Enter(section, cs[0]);
      if inside != "ui" {
        var c :| c in cs && IsUiHeader(c);
        assert c in cs[1..];
      }
      UiEndIsUi(inside, cs[1..]);
      var e := UiEnd(section, cs);
      assert cs[..e][1..] == cs[1..][..e - 1];
    }
  }

  /** An assignment line is never a header. */
  lemma NewLineShape(h: Host, us: Updates, order: seq<string>, key: string)
    requires HostOk(h) && ValidUpdates(h, us, order) && key in us
    ensures var text := Serialize(us[key]);
      && StartsSolid(text) && h.balanced(text) && OneLine(text)
      && (HasTerminator(text) <==> HasSeparator(us[key]))
      && h.header(Assignment(key, text)) == None
  {
    SerializedShape(h.number, us[key]);
  }

  lemma SpliceMeets(a: seq<string>, b: seq<string>, block: seq<string>, at: nat)
    requires at >= |a|
    ensures b == [] || at == |a| ==> Splice(a + b, at, block) == a + block + b
    ensures b != [] && at > |a| && block != [] && block[0] != b[0] ==> Splice(a + b, at, block) != a + block + b
  {
    if at == |a| {
      assert (a + b)[..at] == a && (a + b)[at..] == b;
    } else if b == [] {
      assert a + b == a;
    } else if block != [] {
      assert Splice(a + b, at, block)[|a|] == b[0];
      assert (a + block + b)[|a|] == block[0];
    }
  }

  lemma FirstLineOf(cs: seq<Chunk>)
    requires cs != [] && cs[0].Header?
    ensures Flatten(cs) != [] && Flatten(cs)[0] == cs[0].line
  {
  }

  /** The rewritten chunks on both sides of the splice. */
  lemma RewrittenSides(h: Host, us: Updates, cs: seq<Chunk>, e: nat)
    requires e <= |cs| && AllHaveLines(cs)
    ensures var r, a, b := RewriteAll(h, us, cs), RewriteAll(h, us, cs[..e]), RewriteAll(h, us, cs[e..]);
      && r[..e] == a && r[e..] == b && Flatten(r) == Flatten(a) + Flatten(b)
      && |Flatten(a)| <= |Flatten(cs[..e])|
      && (|Flatten(a)| == |Flatten(cs[..e])| <==> forall c :: c in cs[..e] && Rewrites(h, us, c) ==> |c.lines| == 1)
  {
    assert cs[..e] + cs[e..] == cs;
    RewritePrefix(h, us, cs[..e], cs[e..]);
    Concat(h, "", RewriteAll(h, us, cs[..e]), RewriteAll(h, us, cs[e..]));
    assert forall c :: c in cs[..e] ==> c in cs;
    RewriteShrinks(h, us, cs[..e]);
  }

  /** The editor writes what it should exactly when its insertion line is not shifted. */
  lemma SplicesAsIntendedIff(h: Host, us: Updates, order: seq<string>, lines: seq<string>)
    requires HostOk(h) && ValidUpdates(h, us, order)
    ensures UpdateLines(h, us, order, lines) == Flatten(Intended(h, us, order, Chunks(h, "", lines))) <==>
      !Shifted(h, us, order, Chunks(h, "", lines))
  {
    var cs := Chunks(h, "", lines);
    var p := Pending(cs, order);
    OutOfScan(h, us, lines);
    ScanHasLines(h, "", lines);
    BlockFlattens(us, p);
    if p != [] && HasUi(cs) {
      SpliceAtUiEnd(h, us, order, lines, cs, p);
    } else if p != [] {
      var r := RewriteAll(h, us, cs);
      Concat(h, "", r, NewHeader(Flatten(r)));
      Concat(h, "", r + NewHeader(Flatten(r)), Block(us, p));
    }
  }

  lemma SpliceAtUiEnd(h: Host, us: Updates, order: seq<string>, lines: seq<string>, cs: seq<Chunk>, p: seq<string>)
    requires HostOk(h) && ValidUpdates(h, us, order)
    requires cs == Chunks(h, "", lines) && AllHaveLines(cs) && p == Pending(cs, order) && p != [] && HasUi(cs)
    ensures Splice(Flatten(RewriteAll(h, us, cs)), SectionEnd(cs), BlockLines(us, p)) == Flatten(Intended(h, us, order, cs)) <==>
      !Shifted(h, us, order, cs)
  {
    var e := UiEnd("", cs);
    var a, b, block := RewriteAll(h, us, cs[..e]), RewriteAll(h, us, cs[e..]), Block(us, p);
    RewrittenSides(h, us, cs, e);
    BlockFlattens(us, p);
    Concat(h, "", a, block);
    Concat(h, "", a + block, b);
    SpliceMeets(Flatten(a), Flatten(b), BlockLines(us, p), SectionEnd(cs));
    if e < |cs| {
      UiEndIsUi("", cs);
      ScanScanned(h, "", lines);
      assert cs[e] in cs;
      assert b[0] == cs[e];
      FirstLineOf(b);
      assert p[0] in p;
      NewLineShape(h, us, order, p[0]);
    } else {
      assert b == [];
    }
    ShiftedIff(h, us, order, cs);
  }

  lemma ShiftedIff(h: Host, us: Updates, order: seq<string>, cs: seq<Chunk>)
    requires Pending(cs, order) != [] && HasUi(cs) && AllHaveLines(cs)
    ensures var e := UiEnd("", cs);
      !Shifted(h, us, order, cs) <==> e == |cs| || forall c :: c in cs[..e] && Rewrites(h, us, c) ==> |c.lines| == 1
  {
    assert forall c :: c in cs[..UiEnd("", cs)] ==> c in cs;
  }

  // ---------------------------------------------------------------- the intended chunks scan as themselves

  predicate Writable(h: Host, key: string, text: string) {
    IsKey(key) && StartsSolid(text) && h.balanced(text)
  }

  lemma WrittenFits(h: Host, key: string, text: string)
    requires PatternsOk(h) && Writable(h, key, text)
    ensures Fits(h, "ui", Written(key, text))
  {
    var line := Assignment(key, text);
    assert [line][1..] == [];
  }

  lemma NewTextWritable(h: Host, us: Updates, order: seq<string>, key: string)
    requires HostOk(h) && ValidUpdates(h, us, order) && IsKey(key) && NewText(h, us, key).Some?
    ensures Writable(h, key, NewText(h, us, key).value) && OneLine(NewText(h, us, key).value)
    ensures HasTerminator(NewText(h, us, key).value) <==> key in us && HasSeparator(us[key])
  {
    if key in us {
      SerializedShape(h.number, us[key]);
    } else {
      PlainShape("undefined");
    }
  }

  lemma FittingPairHasKey(h: Host, section: string, c: Chunk)
    requires PatternsOk(h) && Fits(h, section, c) && c.Pair?
    ensures IsKey(c.key)
  {
  }

  lemma RewrittenFits(h: Host, us: Updates, order: seq<string>, section: string, c: Chunk)
    requires HostOk(h) && ValidUpdates(h, us, order) && Fits(h, section, c)
    ensures Fits(h, section, Rewritten(h, us, c)) && Enter(section, Rewritten(h, us, c)) == Enter(section, c)
  {
    if Rewrites(h, us, c) {
      FittingPairHasKey(h, section, c);
      NewTextWritable(h, us, order, c.key);
      WrittenFits(h, c.key, NewText(h, us, c.key).value);
    }
  }

  lemma {:induction false} RewriteWellCut(h: Host, us: Updates, order: seq<string>, section: string, cs: seq<Chunk>)
    requires HostOk(h) && ValidUpdates(h, us, order) && WellCut(h, section, cs)
    ensures WellCut(h, section, RewriteAll(h, us, cs)) && Leave(section, RewriteAll(h, us, cs)) == Leave(section, cs)
    decreases |cs|
  {
    if cs != [] {
      RewrittenFits(h, us, order, section, cs[0]);
      RewriteWellCut(h, us, order, Enter(section, cs[0]), cs[1..]);
      assert RewriteAll(h, us, cs)[1..] == RewriteAll(h, us, cs[1..]);
    }
  }

  lemma {:induction false} BlockWellCut(h: Host, us: Updates, order: seq<string>, keys: seq<string>)
    requires HostOk(h) && ValidUpdates(h, us, order) && forall k :: k in keys ==> k in us
    ensures WellCut(h, "ui", Block(us, keys)) && Leave("ui", Block(us, keys)) == "ui"
  {
    if keys != [] {
      assert keys[0] in keys;
      NewTextWritable(h, us, order, keys[0]);
      WrittenFits(h, keys[0], Serialize(us[keys[0]]));
      BlockWellCut(h, us, order, keys[1..]);
      assert Block(us, keys)[1..] == Block(us, keys[1..]);
    }
  }

  lemma NewHeaderWellCut(h: Host, section: string, lines: seq<string>)
    requires PatternsOk(h)
    ensures WellCut(h, section, NewHeader(lines)) && Leave(section, NewHeader(lines)) == "ui"
  {
    var top := [Header("[ui]", "ui")];
    
    assert top[1..] == [];
    assert WellCut(h, section, top) && Leave(section, top) == "ui";
    var gap := [Other("")];
    assert gap[1..] == [];
    assert WellCut(h, section, gap) && Leave(section, gap) == section;
    Concat(h, section, gap, top);
    assert [] + top == top;
  }

  lemma IntendedWellCut(h: Host, us: Updates, order: seq<string>, cs: seq<Chunk>)
    requires HostOk(h) && ValidUpdates(h, us, order) && WellCut(h, "", cs)
    ensures WellCut(h, "", Intended(h, us, order, cs))
  {
    var r, p := RewriteAll(h, us, cs), Pending(cs, order);
    RewriteWellCut(h, us, order, "", cs);
    if p != [] {
      var block := Block(us, p);
      BlockWellCut(h, us, order, p);
      if HasUi(cs) {
        InsertedWellCut(h, us, order, cs, UiEnd("", cs), block);
      } else {
        var top := NewHeader(Flatten(r));
        NewHeaderWellCut(h, Leave("", r), Flatten(r));
        Concat(h, "", r, top);
        Concat(h, "", r + top, block);
      }
    }
  }

  lemma InsertedWellCut(h: Host, us: Updates, order: seq<string>, cs: seq<Chunk>, e: nat, block: seq<Chunk>)
    requires HostOk(h) && ValidUpdates(h, us, order) && WellCut(h, "", cs) && HasUi(cs) && e == UiEnd("", cs)
    requires WellCut(h, "ui", block) && Leave("ui", block) == "ui"
    ensures var r := RewriteAll(h, us, cs); WellCut(h, "", r[..e] + block + r[e..])
  {
    var a, b := cs[..e], cs[e..];
    assert a + b == cs;
    UiEndIsUi("", cs);
    Concat(h, "", a, b);
    RewritePrefix(h, us, a, b);
    RewriteWellCut(h, us, order, "", a);
    RewriteWellCut(h, us, order, "ui", b);
    Concat(h, "", RewriteAll(h, us, a), block);
    Concat(h, "", RewriteAll(h, us, a) + block, RewriteAll(h, us, b));
  }

  // ---------------------------------------------------------------- what the intended chunks say

  lemma {:induction false} UiKeys(read: string -> Value, cs: seq<Chunk>)
    ensures forall k :: k in Ui(read, cs) <==> IsUiKey(cs, k)
  {
    if cs != [] {
      UiKeys(read, cs[1..]);
      forall k ensures IsUiKey(cs, k) <==> IsUiKey(cs[1..], k) || (IsUiPair(cs[0]) && cs[0].key == k) {
        if IsUiKey(cs[1..], k) {
          var c :| c in cs[1..] && IsUiPair(c) && c.key == k;
          assert c in cs;
        }
      }
    }
  }

  /** What a key of the table reads as once the assignments are rewritten. */
  function Reread(h: Host, us: Updates, key: string, before: Value): Option<Value> {
    match NewText(h, us, key)
    case None => Some(before)
    case Some(text) => if HasTerminator(text) then None else Some(h.read(text))
  }

  ghost predicate RereadTable(h: Host, us: Updates, before: Table, after: Table) {
    forall k ::
      && (k in after <==> k in before && Reread(h, us, k, before[k]).Some?)
      && (k in after ==> after[k] == Reread(h, us, k, before[k]).value)
  }

  lemma {:induction false} RewriteUi(h: Host, us: Updates, cs: seq<Chunk>)
    ensures RereadTable(h, us, Ui(h.read, cs), Ui(h.read, RewriteAll(h, us, cs)))
  {
    if cs != [] {
      RewriteUi(h, us, cs[1..]);
      assert RewriteAll(h, us, cs)[1..] == RewriteAll(h, us, cs[1..]);
      var one, one' := UiPart(h.read, cs[0]), UiPart(h.read, Rewritten(h, us, cs[0]));
      assert RereadTable(h, us, one, one');
      RereadMerge(h, us, one, one', Ui(h.read, cs[1..]), Ui(h.read, RewriteAll(h, us, cs[1..])));
    }
  }

  lemma RereadMerge(h: Host, us: Updates, a: Table, a': Table, b: Table, b': Table)
    requires RereadTable(h, us, a, a') && RereadTable(h, us, b, b')
    ensures RereadTable(h, us, a + b, a' + b')
  {
  }

  /** The new assignments read as the updates, but for those with a line separator. */
  lemma {:induction false} BlockUi(h: Host, us: Updates, order: seq<string>, keys: seq<string>)
    requires HostOk(h) && ValidUpdates(h, us, order) && forall k :: k in keys ==> k in us
    ensures forall k :: k in Ui(h.read, Block(us, keys)) <==> k in keys && !HasSeparator(us[k])
    ensures forall k :: k in Ui(h.read, Block(us, keys)) ==> Ui(h.read, Block(us, keys))[k] == us[k]
  {
    if keys != [] {
      assert keys[0] in keys;
      NewTextWritable(h, us, order, keys[0]);
      BlockUi(h, us, order, keys[1..]);
      assert Block(us, keys)[1..] == Block(us, keys[1..]);
      assert forall k :: k in keys <==> k == keys[0] || k in keys[1..];
    }
  }

  lemma UiInsert(read: string -> Value, a: seq<Chunk>, x: seq<Chunk>, b: seq<Chunk>)
    requires forall k :: k in Ui(read, x) ==> k !in Ui(read, a + b)
    ensures Ui(read, a + x + b) == Ui(read, a + b) + Ui(read, x)
  {
    UiConcat(read, a, x);
    UiConcat(read, a + x, b);
    UiConcat(read, a, b);
    DisjointMerge(Ui(read, a), Ui(read, x), Ui(read, b));
  }

  lemma UiInsertAt(read: string -> Value, r: seq<Chunk>, e: nat, x: seq<Chunk>)
    requires e <= |r| && forall k :: k in Ui(read, x) ==> k !in Ui(read, r)
    ensures Ui(read, r[..e] + x + r[e..]) == Ui(read, r) + Ui(read, x)
  {
    assert r[..e] + r[e..] == r;
    UiInsert(read, r[..e], x, r[e..]);
  }

  lemma DisjointMerge(a: Table, x: Table, b: Table)
    requires forall k :: k in x ==> k !in a + b
    ensures a + x + b == a + b + x
  {
  }

  lemma BlockIsNew(h: Host, us: Updates, order: seq<string>, cs: seq<Chunk>)
    requires HostOk(h) && ValidUpdates(h, us, order)
    ensures forall k :: k in Ui(h.read, Block(us, Pending(cs, order))) ==> k !in Ui(h.read, RewriteAll(h, us, cs))
  {
    RewriteUi(h, us, cs);
    UiKeys(h.read, cs);
    BlockUi(h, us, order, Pending(cs, order));
  }

  /** The table of the intended chunks is that of the rewritten ones and of the new ones. */
  lemma IntendedUiParts(h: Host, us: Updates, order: seq<string>, cs: seq<Chunk>)
    requires HostOk(h) && ValidUpdates(h, us, order)
    ensures Ui(h.read, Intended(h, us, order, cs)) == Ui(h.read, RewriteAll(h, us, cs)) + Ui(h.read, Block(us, Pending(cs, order)))
  {
    var r, p := RewriteAll(h, us, cs), Pending(cs, order);
    var block := Block(us, p);
    if p != [] {
      if HasUi(cs) {
        BlockIsNew(h, us, order, cs);
        UiInsertAt(h.read, r, UiEnd("", cs), block);
      } else {
        var top := NewHeader(Flatten(r));
        NoPairs(h.read, map[], top);
        UiAppend(h.read, r, top, block);
      }
    } else {
      EmptyMerge(Ui(h.read, r));
    }
  }

  lemma UiAppend(read: string -> Value, r: seq<Chunk>, top: seq<Chunk>, block: seq<Chunk>)
    requires Ui(read, top) == map[]
    ensures Ui(read, r + top + block) == Ui(read, r) + Ui(read, block)
  {
    UiConcat(read, r, top);
    UiConcat(read, r + top, block);
    EmptyMerge(Ui(read, r));
  }

  lemma EmptyMerge(t: Table)
    ensures t + map[] == t
  {
  }

  /** Chunks without an assignment add nothing to any table. */
  lemma {:induction false} NoPairs(read: string -> Value, t: Tables, cs: seq<Chunk>)
    requires forall c :: c in cs ==> !c.Pair?
    ensures Ui(read, cs) == map[] && SubTables(read, t, cs) == t
  {
    if cs != [] {
      assert cs[0] in cs;
      NoPairs(read, t, cs[1..]);
    }
  }

  /** What every key of the edited table reads as. */
  ghost predicate Overlaid(h: Host, us: Updates, before: Table, after: Table) {
    && (forall k :: k in after <==> if k in us then !HasSeparator(us[k]) else k in before)
    && (forall k :: k in after ==> after[k] == (if k in us then us[k] else if k in h.inherited then Str("undefined") else before[k]))
  }

  lemma RereadIs(h: Host, us: Updates, order: seq<string>, k: string, before: Value)
    requires HostOk(h) && ValidUpdates(h, us, order)
    ensures Reread(h, us, k, before) ==
      if k in us then (if HasSeparator(us[k]) then None else Some(us[k]))
      else Some(if k in h.inherited then Str("undefined") else before)
  {
    if k in us {
      NewTextWritable(h, us, order, k);
    } else {
      PlainShape("undefined");
    }
  }

  lemma IntendedUi(h: Host, us: Updates, order: seq<string>, cs: seq<Chunk>)
    requires HostOk(h) && ValidUpdates(h, us, order)
    ensures Overlaid(h, us, Ui(h.read, cs), Ui(h.read, Intended(h, us, order, cs)))
  {
    var before, after := Ui(h.read, cs), Ui(h.read, Intended(h, us, order, cs));
    var p := Pending(cs, order);
    IntendedUiParts(h, us, order, cs);
    RewriteUi(h, us, cs);
    BlockUi(h, us, order, p);
    UiKeys(h.read, cs);
    forall k ensures k in after <==> if k in us then !HasSeparator(us[k]) else k in before
      ensures k in after ==> after[k] == (if k in us then us[k] else if k in h.inherited then Str("undefined") else before[k])
    {
      if k in before {
        RereadIs(h, us, order, k, before[k]);
      }
    }
  }

  /** What a caller can check: no updated string holds U+2028 or U+2029, and no
      key of the table that is not updated has an inherited name, unless it
      already reads "undefined". */
  predicate Expressible(h: Host, us: Updates, before: Table) {
    && (forall k :: k in us ==> !HasSeparator(us[k]))
    && (forall k :: k in before && k !in us && k in h.inherited ==> before[k] == Str("undefined"))
  }

  lemma OverlaidIff(h: Host, us: Updates, before: Table, after: Table)
    requires Overlaid(h, us, before, after)
    ensures after == before + us <==> Expressible(h, us, before)
  {
    if after == before + us {
      forall k | k in us ensures !HasSeparator(us[k]) {
        assert k in before + us;
      }
      forall k | k in before && k !in us && k in h.inherited ensures before[k] == Str("undefined") {
        assert k in before + us && (before + us)[k] == before[k];
      }
    }
  }

  // ---------------------------------------------------------------- sub-tables

  lemma RewrittenPuts(h: Host, us: Updates, t: Tables, c: Chunk)
    ensures Put(h.read, t, Rewritten(h, us, c)) == Put(h.read, t, c)
  {
    assert |"ui."| == 3 && |"ui"| == 2;
  }

  lemma {:induction false} RewriteSubTables(h: Host, us: Updates, t: Tables, cs: seq<Chunk>)
    ensures SubTables(h.read, t, RewriteAll(h, us, cs)) == SubTables(h.read, t, cs)
    decreases |cs|
  {
    if cs != [] {
      RewrittenPuts(h, us, t, cs[0]);
      RewriteSubTables(h, us, Put(h.read, t, cs[0]), cs[1..]);
      assert RewriteAll(h, us, cs)[1..] == RewriteAll(h, us, cs[1..]);
    }
  }

  lemma {:induction false} BlockSubTables(read: string -> Value, us: Updates, t: Tables, keys: seq<string>)
    requires forall k :: k in keys ==> k in us
    ensures SubTables(read, t, Block(us, keys)) == t
  {
    if keys != [] {
      assert keys[0] in keys;
      assert |"ui."| == 3 && |"ui"| == 2;
      BlockSubTables(read, us, t, keys[1..]);
      assert Block(us, keys)[1..] == Block(us, keys[1..]);
    }
  }

  lemma IntendedSubTables(h: Host, us: Updates, order: seq<string>, cs: seq<Chunk>)
    requires forall k :: k in order ==> k in us
    ensures SubTables(h.read, map[], Intended(h, us, order, cs)) == SubTables(h.read, map[], cs)
  {
    var r, p := RewriteAll(h, us, cs), Pending(cs, order);
    var block := Block(us, p);
    RewriteSubTables(h, us, map[], cs);
    if p != [] {
      if HasUi(cs) {
        var e := UiEnd("", cs);
        BlockSubTables(h.read, us, SubTables(h.read, map[], r[..e]), p);
        SubTablesInsert(h.read, map[], r[..e], block, r[e..]);
        assert r[..e] + r[e..] == r;
      } else {
        var top := NewHeader(Flatten(r));
        SubTablesConcat(h.read, map[], r + top, block);
        SubTablesConcat(h.read, map[], r, top);
        NoPairs(h.read, SubTables(h.read, map[], r), top);
        BlockSubTables(h.read, us, SubTables(h.read, map[], r), p);
      }
    }
  }

  lemma SubTablesInsert(read: string -> Value, t: Tables, a: seq<Chunk>, x: seq<Chunk>, b: seq<Chunk>)
    requires SubTables(read, SubTables(read, t, a), x) == SubTables(read, t, a)
    ensures SubTables(read, t, a + x + b) == SubTables(read, t, a + b)
  {
    SubTablesConcat(read, t, a + x, b);
    SubTablesConcat(read, t, a, x);
    SubTablesConcat(read, t, a, b);
  }

  // ---------------------------------------------------------------- the lines that are kept

  /** The lines of everything but the rewritten assignments. */
  function Kept(h: Host, us: Updates, cs: seq<Chunk>): seq<string> {
    if cs == [] then []
    else (if Rewrites(h, us, cs[0]) then [] else LinesOf(cs[0])) + Kept(h, us, cs[1..])
  }

  lemma {:induction false} KeptConcat(h: Host, us: Updates, a: seq<Chunk>, b: seq<Chunk>)
    ensures Kept(h, us, a + b) == Kept(h, us, a) + Kept(h, us, b)
  {
    if a == [] {
      assert a + b == b;
    } else {
      assert (a + b)[1..] == a[1..] + b && (a + b)[0] == a[0];
      KeptConcat(h, us, a[1..], b);
    }
  }

  /** A rewritten assignment that reads back is one the same update would rewrite again. */
  lemma RewritesAgain(h: Host, us: Updates, order: seq<string>, c: Chunk)
    requires HostOk(h) && ValidUpdates(h, us, order) && Scanned(h, c)
    requires forall k :: k in us ==> !HasSeparator(us[k])
    ensures Rewrites(h, us, Rewritten(h, us, c)) == Rewrites(h, us, c)
    ensures Rewrites(h, us, c) ==> |LinesOf(Rewritten(h, us, c))| == 1
    ensures Rewritten(h, us, Rewritten(h, us, c)) == Rewritten(h, us, c)
  {
    if Rewrites(h, us, c) {
      NewTextWritable(h, us, order, c.key);
    }
  }

  lemma {:induction false} RewriteKeeps(h: Host, us: Updates, order: seq<string>, cs: seq<Chunk>)
    requires HostOk(h) && ValidUpdates(h, us, order) && forall c :: c in cs ==> Scanned(h, c)
    requires forall k :: k in us ==> !HasSeparator(us[k])
    ensures Kept(h, us, RewriteAll(h, us, cs)) == Kept(h, us, cs)
  {
    if cs != [] {
      assert cs[0] in cs;
      RewritesAgain(h, us, order, cs[0]);
      RewriteKeeps(h, us, order, cs[1..]);
      assert RewriteAll(h, us, cs)[1..] == RewriteAll(h, us, cs[1..]);
    }
  }

  lemma WrittenIsRewritten(h: Host, us: Updates, order: seq<string>, key: string)
    requires HostOk(h) && ValidUpdates(h, us, order) && key in us && !HasSeparator(us[key])
    ensures Rewrites(h, us, Written(key, Serialize(us[key])))
  {
    NewTextWritable(h, us, order, key);
  }

  lemma {:induction false} BlockKeepsNothing(h: Host, us: Updates, order: seq<string>, keys: seq<string>)
    requires HostOk(h) && ValidUpdates(h, us, order) && forall k :: k in keys ==> k in us
    requires forall k :: k in us ==> !HasSeparator(us[k])
    ensures Kept(h, us, Block(us, keys)) == []
  {
    if keys != [] {
      assert keys[0] in keys;
      WrittenIsRewritten(h, us, order, keys[0]);
      BlockKeepsNothing(h, us, order, keys[1..]);
      assert Block(us, keys)[1..] == Block(us, keys[1..]);
    }
  }

  lemma {:induction false} NoPairsKept(h: Host, us: Updates, cs: seq<Chunk>)
    requires forall c :: c in cs ==> !c.Pair?
    ensures Kept(h, us, cs) == Flatten(cs)
  {
    if cs != [] {
      assert cs[0] in cs;
      NoPairsKept(h, us, cs[1..]);
    }
  }

  /** The lines an edit adds besides assignments: the table's header where there was none. */
  function Added(h: Host, us: Updates, order: seq<string>, cs: seq<Chunk>): seq<string> {
    if Pending(cs, order) == [] || HasUi(cs) then [] else Flatten(NewHeader(Flatten(RewriteAll(h, us, cs))))
  }

  lemma KeptInsert(h: Host, us: Updates, r: seq<Chunk>, e: nat, x: seq<Chunk>)
    requires e <= |r| && Kept(h, us, x) == []
    ensures Kept(h, us, r[..e] + x + r[e..]) == Kept(h, us, r)
  {
    assert r[..e] + r[e..] == r;
    KeptConcat(h, us, r[..e], x);
    KeptConcat(h, us, r[..e] + x, r[e..]);
    KeptConcat(h, us, r[..e], r[e..]);
  }

  lemma IntendedKeeps(h: Host, us: Updates, order: seq<string>, cs: seq<Chunk>)
    requires HostOk(h) && ValidUpdates(h, us, order) && forall c :: c in cs ==> Scanned(h, c)
    requires forall k :: k in us ==> !HasSeparator(us[k])
    ensures Kept(h, us, Intended(h, us, order, cs)) == Kept(h, us, cs) + Added(h, us, order, cs)
  {
    var r, p := RewriteAll(h, us, cs), Pending(cs, order);
    var block := Block(us, p);
    RewriteKeeps(h, us, order, cs);
    BlockKeepsNothing(h, us, order, p);
    if p != [] {
      if HasUi(cs) {
        KeptInsert(h, us, r, UiEnd("", cs), block);
      } else {
        var top := NewHeader(Flatten(r));
        NoPairsKept(h, us, top);
        KeptConcat(h, us, r, top);
        KeptConcat(h, us, r + top, block);
      }
    }
  }

  // ---------------------------------------------------------------- the last newline

  lemma {:induction false} ClosingLineNotBlank(h: Host, value: string, more: seq<string>)
    requires PatternsOk(h) && Closes(h, value, more) && more != []
    ensures more[|more| - 1] != ""
    decreases |more|
  {
    assert value + "\n" + "" == value + "\n" && h.balanced(value + "\n") == h.balanced(value);
    if |more| > 1 {
      ClosingLineNotBlank(h, value + "\n" + more[0], more[1..]);
    }
  }

  /** Only an empty line of its own can end in an empty line. */
  lemma LastLineOf(h: Host, section: string, c: Chunk)
    requires PatternsOk(h) && Fits(h, section, c)
    ensures LinesOf(c) != [] && (LinesOf(c)[|LinesOf(c)| - 1] == "" ==> c == Other(""))
  {
    
    if c.Pair? {
      PairEndsSolid(h, c.lines);
    }
  }

  lemma PairEndsSolid(h: Host, lines: seq<string>)
    requires PatternsOk(h) && lines != [] && h.pair(lines[0]).Some? && Closes(h, h.pair(lines[0]).value.1, lines[1..])
    ensures lines[|lines| - 1] != ""
  {
    
    if |lines| > 1 {
      ClosingLineNotBlank(h, h.pair(lines[0]).value.1, lines[1..]);
    }
  }

  function DropBlankTail(cs: seq<Chunk>): seq<Chunk> {
    if |cs| > 1 && cs[|cs| - 1] == Other("") then DropBlankTail(cs[..|cs| - 1]) else cs
  }

  lemma SplitLast(h: Host, section: string, cs: seq<Chunk>)
    requires cs != []
    ensures var init, last := cs[..|cs| - 1], cs[|cs| - 1];
      && Flatten(cs) == Flatten(init) + LinesOf(last)
      && (WellCut(h, section, cs) ==> WellCut(h, section, init) && Fits(h, Leave(section, init), last))
  {
    var init, last := cs[..|cs| - 1], cs[|cs| - 1];
    assert cs == init + [last] && [last][1..] == [];
    Concat(h, section, init, [last]);
    assert Flatten([last]) == LinesOf(last);
  }

  /** Dropping trailing blank lines drops trailing blank chunks. */
  lemma {:induction false} StripScan(h: Host, cs: seq<Chunk>)
    requires PatternsOk(h) && WellCut(h, "", cs) && cs != []
    ensures DropBlankTail(cs) != [] && WellCut(h, "", DropBlankTail(cs))
    ensures Flatten(cs) != [] && Flatten(DropBlankTail(cs)) == StripBlank(Flatten(cs))
  {
    var init, last := cs[..|cs| - 1], cs[|cs| - 1];
    SplitLast(h, "", cs);
    LastLineOf(h, Leave("", init), last);
    var all := Flatten(cs);
    assert all[|all| - 1] == LinesOf(last)[|LinesOf(last)| - 1];
    if |cs| > 1 && last == Other("") {
      StripScan(h, init);
      assert all[..|all| - 1] == Flatten(init);
    } else if last == Other("") {
      assert init == [];
    }
  }

  /** The scan of the edited text. */
  lemma ScanOfResult(h: Host, cs: seq<Chunk>)
    requires PatternsOk(h) && WellCut(h, "", cs) && cs != []
    ensures Chunks(h, "", StripBlank(Flatten(cs)) + [""]) == DropBlankTail(cs) + [Other("")]
  {
    StripScan(h, cs);
    var kept, end := DropBlankTail(cs), [Other("")];
    assert end[1..] == [] && WellCut(h, Leave("", kept), end) && Flatten(end) == [""];
    Concat(h, "", kept, end);
    WellCutScans(h, "", kept + end);
  }

  function DropBlank(lines: seq<string>): seq<string> {
    if lines != [] && lines[|lines| - 1] == "" then DropBlank(lines[..|lines| - 1]) else lines
  }

  /** Blank chunks at the end say nothing. */
  lemma {:induction false} BlankTailSaysNothing(h: Host, us: Updates, cs: seq<Chunk>)
    ensures Ui(h.read, DropBlankTail(cs)) == Ui(h.read, cs)
    ensures SubTables(h.read, map[], DropBlankTail(cs)) == SubTables(h.read, map[], cs)
    ensures DropBlank(Kept(h, us, DropBlankTail(cs))) == DropBlank(Kept(h, us, cs))
  {
    if |cs| > 1 && cs[|cs| - 1] == Other("") {
      var init := cs[..|cs| - 1];
      assert cs == init + [Other("")];
      OneBlankSaysNothing(h, us, init);
      BlankTailSaysNothing(h, us, init);
    }
  }

  lemma OneBlankSaysNothing(h: Host, us: Updates, cs: seq<Chunk>)
    ensures Ui(h.read, cs + [Other("")]) == Ui(h.read, cs)
    ensures SubTables(h.read, map[], cs + [Other("")]) == SubTables(h.read, map[], cs)
    ensures DropBlank(Kept(h, us, cs + [Other("")])) == DropBlank(Kept(h, us, cs))
  {
    var end := [Other("")];
    UiConcat(h.read, cs, end);
    SubTablesConcat(h.read, map[], cs, end);
    KeptConcat(h, us, cs, end);
    NoPairs(h.read, SubTables(h.read, map[], cs), end);
    NoPairsKept(h, us, end);
    EmptyMerge(Ui(h.read, cs));
    assert end[1..] == [] && Flatten(end) == [""];
    assert (Kept(h, us, cs) + [""])[..|Kept(h, us, cs)|] == Kept(h, us, cs);
  }

  // ---------------------------------------------------------------- the main results

  function Scan(h: Host, text: string): seq<Chunk> {
    Chunks(h, "", Split(text))
  }

  function ReadUi(h: Host, text: string): Table {
    Ui(h.read, Scan(h, text))
  }

  function ReadTables(h: Host, text: string): Tables {
    SubTables(h.read, map[], Scan(h, text))
  }

  lemma {:induction false} FlattenOneLine(cs: seq<Chunk>)
    requires forall c :: c in cs ==> forall l :: l in LinesOf(c) ==> OneLine(l)
    ensures forall l :: l in Flatten(cs) ==> OneLine(l)
  {
    if cs != [] {
      assert cs[0] in cs;
      FlattenOneLine(cs[1..]);
    }
  }

  lemma AssignmentOneLine(key: string, text: string)
    requires IsKey(key) && OneLine(text)
    ensures OneLine(Assignment(key, text))
  {
    assert '\n' !in key && '\n' !in " = ";
  }

  /** Every line the editor writes is one line. */
  lemma {:induction false} RewriteOneLine(h: Host, us: Updates, order: seq<string>, cs: seq<Chunk>)
    requires HostOk(h) && ValidUpdates(h, us, order) && forall c :: c in cs ==> Scanned(h, c)
    requires forall l :: l in Flatten(cs) ==> OneLine(l)
    ensures forall l :: l in Flatten(RewriteAll(h, us, cs)) ==> OneLine(l)
  {
    if cs != [] {
      assert cs[0] in cs && forall x :: x in cs[1..] ==> x in cs;
      FlattenRewritten(h, us, cs);
      RewriteOneLine(h, us, order, cs[1..]);
      if Rewrites(h, us, cs[0]) {
        NewTextWritable(h, us, order, cs[0].key);
        WrittenLine(cs[0].key, NewText(h, us, cs[0].key).value);
        AssignmentOneLine(cs[0].key, NewText(h, us, cs[0].key).value);
      }
    }
  }

  lemma {:induction false} BlockOneLine(h: Host, us: Updates, order: seq<string>, keys: seq<string>)
    requires HostOk(h) && ValidUpdates(h, us, order) && forall k :: k in keys ==> k in us
    ensures forall l :: l in BlockLines(us, keys) ==> OneLine(l)
  {
    if keys != [] {
      assert keys[0] in keys;
      NewTextWritable(h, us, order, keys[0]);
      AssignmentOneLine(keys[0], Serialize(us[keys[0]]));
      BlockOneLine(h, us, order, keys[1..]);
    }
  }

  predicate AllOneLine(lines: seq<string>) {
    forall l :: l in lines ==> OneLine(l)
  }

  lemma SpliceOneLine(out: seq<string>, at: nat, block: seq<string>)
    requires out != [] && AllOneLine(out) && AllOneLine(block)
    ensures Splice(out, at, block) != [] && AllOneLine(Splice(out, at, block))
  {
  }

  lemma NewHeaderOneLine(lines: seq<string>)
    ensures AllOneLine(Flatten(NewHeader(lines)))
  {
    var top := NewHeader(lines);
    assert forall c :: c in top ==> c == Other("") || c == Header("[ui]", "ui");
    FlattenOneLine(top);
  }

  lemma RewrittenOneLine(h: Host, us: Updates, order: seq<string>, lines: seq<string>)
    requires HostOk(h) && ValidUpdates(h, us, order)
    requires lines != [] && AllOneLine(lines)
    ensures var cs := Chunks(h, "", lines);
      var out := Flatten(RewriteAll(h, us, cs));
      out == OutFrom(h, us, lines, EntriesAt(h.read, 0, cs), 0) && out != [] && AllOneLine(out)
  {
    var cs := Chunks(h, "", lines);
    ScanKeepsLines(h, "", lines);
    ScanScanned(h, "", lines);
    OutOfScan(h, us, lines);
    RewriteOneLine(h, us, order, cs);
    RewriteHasLines(h, us, lines);
  }

  lemma UpdateLinesOneLine(h: Host, us: Updates, order: seq<string>, lines: seq<string>)
    requires HostOk(h) && ValidUpdates(h, us, order)
    requires lines != [] && AllOneLine(lines)
    ensures UpdateLines(h, us, order, lines) != [] && AllOneLine(UpdateLines(h, us, order, lines))
  {
    var cs := Chunks(h, "", lines);
    var out, p := Flatten(RewriteAll(h, us, cs)), Pending(cs, order);
    RewrittenOneLine(h, us, order, lines);
    BlockOneLine(h, us, order, p);
    SpliceOneLine(out, SectionEnd(cs), BlockLines(us, p));
    NewHeaderOneLine(out);
  }

  lemma RewriteHasLines(h: Host, us: Updates, lines: seq<string>)
    requires lines != []
    ensures Flatten(RewriteAll(h, us, Chunks(h, "", lines))) != []
  {
    ScanHasLines(h, "", lines);
    var cs := Chunks(h, "", lines);
    assert cs[0] in cs;
    FlattenRewritten(h, us, cs);
    if Rewrites(h, us, cs[0]) {
      WrittenLine(cs[0].key, NewText(h, us, cs[0].key).value);
    }
  }

  /** The scan of the edited text, where the splice is not shifted. */
  lemma ScanOfUpdate(h: Host, us: Updates, order: seq<string>, text: string)
    requires HostOk(h) && ValidUpdates(h, us, order) && WellFormed(h, Split(text))
    requires !Shifted(h, us, order, Scan(h, text))
    ensures var goal := Intended(h, us, order, Scan(h, text));
      WellCut(h, "", goal) && goal != [] && Scan(h, Update(h, us, order, text)) == DropBlankTail(goal) + [Other("")]
  {
    var lines := Split(text);
    SplitsIntoLines(text);
    UpdateLinesOneLine(h, us, order, lines);
    FinalNewline(UpdateLines(h, us, order, lines));
    SplicesAsIntendedIff(h, us, order, lines);
    ScanCuts(h, "", lines);
    IntendedWellCut(h, us, order, Scan(h, text));
    ScanOfResult(h, Intended(h, us, order, Scan(h, text)));
  }

  /** What every key reads as after the edit of a balanced text whose splice is
      not shifted; the sub-tables are as before. */
  lemma UpdateIsOverlaid(h: Host, us: Updates, order: seq<string>, text: string)
    requires HostOk(h) && ValidUpdates(h, us, order) && WellFormed(h, Split(text))
    requires !Shifted(h, us, order, Scan(h, text))
    ensures Overlaid(h, us, ReadUi(h, text), ReadUi(h, Update(h, us, order, text)))
    ensures ReadTables(h, Update(h, us, order, text)) == ReadTables(h, text)
  {
    var cs := Scan(h, text);
    var goal := Intended(h, us, order, cs);
    ScanOfUpdate(h, us, order, text);
    BlankTailSaysNothing(h, us, goal);
    OneBlankSaysNothing(h, us, DropBlankTail(goal));
    IntendedUi(h, us, order, cs);
    IntendedSubTables(h, us, order, cs);
  }

  /** The edit is right: for a balanced text whose splice is not shifted, reading
      the edited text gives the old table overlaid by the updates exactly when
      the updates are expressible; the sub-tables are as before. */
  lemma UpdateOverlaysIff(h: Host, us: Updates, order: seq<string>, text: string)
    requires HostOk(h) && ValidUpdates(h, us, order) && WellFormed(h, Split(text))
    requires !Shifted(h, us, order, Scan(h, text))
    ensures ReadUi(h, Update(h, us, order, text)) == ReadUi(h, text) + us <==> Expressible(h, us, ReadUi(h, text))
    ensures ReadTables(h, Update(h, us, order, text)) == ReadTables(h, text)
  {
    UpdateIsOverlaid(h, us, order, text);
    OverlaidIff(h, us, ReadUi(h, text), ReadUi(h, Update(h, us, order, text)));
  }

  /** Everything but the rewritten assignments keeps its lines and their order,
      up to blank lines at the end and the header of a new table. */
  lemma UpdateKeepsTheRest(h: Host, us: Updates, order: seq<string>, text: string)
    requires HostOk(h) && ValidUpdates(h, us, order) && WellFormed(h, Split(text))
    requires !Shifted(h, us, order, Scan(h, text)) && forall k :: k in us ==> !HasSeparator(us[k])
    ensures DropBlank(Kept(h, us, Scan(h, Update(h, us, order, text)))) ==
      DropBlank(Kept(h, us, Scan(h, text)) + Added(h, us, order, Scan(h, text)))
  {
    var cs := Scan(h, text);
    var goal := Intended(h, us, order, cs);
    ScanOfUpdate(h, us, order, text);
    BlankTailSaysNothing(h, us, goal);
    OneBlankSaysNothing(h, us, DropBlankTail(goal));
    ScanScanned(h, "", Split(text));
    IntendedKeeps(h, us, order, cs);
  }

  // ---------------------------------------------------------------- the shifted splice

  /** Lines of a section the scanner ignores: one chunk each. */
  predicate Ignored(cs: seq<Chunk>) {
    forall c :: c in cs ==> c.Other? || (c.Header? && !InUi(c.name))
  }

  lemma {:induction false} IgnoredLines(cs: seq<Chunk>)
    requires Ignored(cs)
    ensures |Flatten(cs)| == |cs|
  {
    if cs != [] {
      assert cs[0] in cs;
      IgnoredLines(cs[1..]);
    }
  }

  /** An ignored stretch that starts with a header ends outside the table. */
  lemma {:induction false} IgnoredStays(section: string, cs: seq<Chunk>)
    requires Ignored(cs) && (!InUi(section) || (cs != [] && cs[0].Header?))
    ensures !InUi(Leave(section, cs))
    decreases |cs|
  {
    if cs != [] {
      assert cs[0] in cs;
      IgnoredStays(Enter(section, cs[0]), cs[1..]);
    }
  }

  lemma {:induction false} NothingElseIsCut(h: Host, section: string, cs: seq<Chunk>)
    requires WellCut(h, section, cs) && !InUi(section) && forall c :: c in cs && c.Header? ==> !InUi(c.name)
    ensures Ignored(cs)
    decreases |cs|
  {
    if cs != [] {
      assert cs[0] in cs;
      NothingElseIsCut(h, Enter(section, cs[0]), cs[1..]);
    }
  }

  /** How assignment lines scan outside the table. */
  function Strays(lines: seq<string>): seq<Chunk> {
    if lines == [] then [] else [Other(lines[0])] + Strays(lines[1..])
  }

  lemma {:induction false} StraysWellCut(h: Host, section: string, lines: seq<string>)
    requires !InUi(section) && forall l :: l in lines ==> h.header(l) == None
    ensures WellCut(h, section, Strays(lines)) && Leave(section, Strays(lines)) == section && Flatten(Strays(lines)) == lines
    ensures forall c :: c in Strays(lines) ==> c.Other?
  {
    if lines != [] {
      assert lines[0] in lines;
      StraysWellCut(h, section, lines[1..]);
      assert Strays(lines)[1..] == Strays(lines[1..]);
    }
  }

  lemma {:induction false} BlockNoHeader(h: Host, us: Updates, order: seq<string>, keys: seq<string>)
    requires HostOk(h) && ValidUpdates(h, us, order) && forall k :: k in keys ==> k in us
    ensures forall l :: l in BlockLines(us, keys) ==> h.header(l) == None
  {
    if keys != [] {
      assert keys[0] in keys;
      NewLineShape(h, us, order, keys[0]);
      BlockNoHeader(h, us, order, keys[1..]);
    }
  }

  lemma {:induction false} IgnoredUnchanged(h: Host, us: Updates, cs: seq<Chunk>)
    requires Ignored(cs)
    ensures RewriteAll(h, us, cs) == cs
  {
    if cs != [] {
      assert cs[0] in cs;
      IgnoredUnchanged(h, us, cs[1..]);
    }
  }

  lemma TailWellCut(h: Host, cs: seq<Chunk>, e: nat, b: seq<Chunk>)
    requires WellCut(h, "", cs) && HasUi(cs) && e == UiEnd("", cs) < |cs| && b == cs[e..]
    ensures WellCut(h, "ui", b) && b != [] && b[0].Header?
  {
    assert cs[..e] + b == cs;
    UiEndIsUi("", cs);
    Concat(h, "", cs[..e], b);
  }

  /** What follows a foreign header is ignored, if no header of the table's follows. */
  lemma IgnoredFromHeader(h: Host, b: seq<Chunk>)
    requires WellCut(h, "ui", b) && b != [] && b[0].Header? && forall c :: c in b && c.Header? ==> !InUi(c.name)
    ensures Ignored(b)
  {
    assert b[0] in b && forall c :: c in b[1..] ==> c in b;
    NothingElseIsCut(h, b[0].name, b[1..]);
    assert forall c :: c in b ==> c == b[0] || c in b[1..];
  }

  /** A splice behind the first m ignored chunks scans as stray lines there. */
  lemma StrayWellCut(h: Host, a: seq<Chunk>, x: seq<Chunk>, y: seq<Chunk>, block: seq<string>)
    requires WellCut(h, "", a) && WellCut(h, Leave("", a), x + y) && Ignored(x) && x != [] && x[0].Header?
    requires forall l :: l in block ==> h.header(l) == None
    ensures WellCut(h, "", a + x + Strays(block) + y)
    ensures Flatten(a + x + Strays(block) + y) == Flatten(a) + Flatten(x) + block + Flatten(y)
  {
    var s := Leave("", a);
    IgnoredStays(s, x);
    StraysWellCut(h, Leave(s, x), block);
    Concat(h, s, x, y);
    Concat(h, "", a, x);
    Concat(h, "", a + x, Strays(block));
    Concat(h, "", a + x + Strays(block), y);
  }

  lemma IgnoredSlices(h: Host, b: seq<Chunk>, m: nat)
    requires Ignored(b) && m <= |b|
    ensures Ignored(b[..m]) && Ignored(b[m..])
    ensures |Flatten(b)| == |b| && Flatten(b)[..m] == Flatten(b[..m]) && Flatten(b)[m..] == Flatten(b[m..])
  {
    assert b[..m] + b[m..] == b;
    assert forall c :: c in b[..m] || c in b[m..] ==> c in b;
    Concat(h, "", b[..m], b[m..]);
    IgnoredLines(b);
    IgnoredLines(b[..m]);
  }

  lemma SpliceBehind(a: seq<string>, b: seq<string>, at: nat, block: seq<string>) returns (m: nat)
    requires at > |a| && b != []
    ensures 0 < m <= |b| && Splice(a + b, at, block) == a + b[..m] + block + b[m..]
  {
    if at <= |a + b| {
      m := at - |a|;
      assert (a + b)[..at] == a + b[..m] && (a + b)[at..] == b[m..];
    } else {
      m := |b|;
      assert b[..m] == b && b[m..] == [];
    }
  }

  lemma QuietAppend(read: string -> Value, a: seq<Chunk>, x: seq<Chunk>)
    requires forall c :: c in x ==> !c.Pair?
    ensures Ui(read, a + x) == Ui(read, a)
  {
    UiConcat(read, a, x);
    NoPairs(read, map[], x);
    EmptyMerge(Ui(read, a));
  }

  /** The table read from such a file is that of the chunks before. */
  lemma StrayUi(read: string -> Value, a: seq<Chunk>, x: seq<Chunk>, y: seq<Chunk>, block: seq<string>)
    requires Ignored(x) && Ignored(y)
    ensures Ui(read, a + x + Strays(block) + y) == Ui(read, a)
  {
    StraysAreOther(block);
    QuietAppend(read, a, x);
    QuietAppend(read, a + x, Strays(block));
    QuietAppend(read, a + x + Strays(block), y);
  }

  lemma {:induction false} StraysAreOther(lines: seq<string>)
    ensures forall c :: c in Strays(lines) ==> c.Other?
  {
    if lines != [] {
      StraysAreOther(lines[1..]);
    }
  }

  /** Rewriting adds no key to the table. */
  lemma RewriteAddsNoKey(h: Host, us: Updates, a: seq<Chunk>, cs: seq<Chunk>, k: string)
    requires a <= cs && k in Ui(h.read, RewriteAll(h, us, a))
    ensures IsUiKey(cs, k)
  {
    RewriteUi(h, us, a);
    UiKeys(h.read, a);
    var c :| c in a && IsUiPair(c) && c.key == k;
    assert c in cs;
  }

  /** What a shifted splice does when no later section is one of the table's:
      every new key lands in a section the scanner ignores, and is lost. */
  lemma ShiftLosesKeys(h: Host, us: Updates, order: seq<string>, text: string)
    requires HostOk(h) && ValidUpdates(h, us, order) && WellFormed(h, Split(text))
    requires Shifted(h, us, order, Scan(h, text))
    requires var cs := Scan(h, text); forall c :: c in cs[UiEnd("", cs)..] && c.Header? ==> !InUi(c.name)
    ensures forall k :: k in Pending(Scan(h, text), order) ==> k !in ReadUi(h, Update(h, us, order, text))
  {
    var lines, cs := Split(text), Scan(h, text);
    var e, p := UiEnd("", cs), Pending(cs, order);
    var a, b, block := RewriteAll(h, us, cs[..e]), cs[e..], BlockLines(us, p);
    var x, y := ShiftedScan(h, us, order, lines, cs, e, a, b, block);
    var all := a + x + Strays(block) + y;
    SplitsIntoLines(text);
    UpdateLinesOneLine(h, us, order, lines);
    FinalNewline(UpdateLines(h, us, order, lines));
    ScanOfResult(h, all);
    StrayUi(h.read, a, x, y, block);
    BlankTailSaysNothing(h, us, all);
    OneBlankSaysNothing(h, us, DropBlankTail(all));
    assert ReadUi(h, Update(h, us, order, text)) == Ui(h.read, a);
    forall k | k in p ensures k !in Ui(h.read, a) {
      if k in Ui(h.read, a) {
        RewriteAddsNoKey(h, us, cs[..e], cs, k);
      }
    }
  }

  /** The lines of a shifted edit: the block lies behind the first m lines that follow the table. */
  lemma ShiftedLines(h: Host, us: Updates, order: seq<string>, lines: seq<string>, cs: seq<Chunk>, e: nat,
                     a: seq<string>, b: seq<string>, block: seq<string>) returns (m: nat)
    requires forall k :: k in order ==> k in us
    requires cs == Chunks(h, "", lines) && Shifted(h, us, order, cs) && e == UiEnd("", cs)
    requires a == Flatten(RewriteAll(h, us, cs[..e])) && b == Flatten(RewriteAll(h, us, cs[e..])) && b != []
    requires block == BlockLines(us, Pending(cs, order))
    ensures 0 < m <= |b| && UpdateLines(h, us, order, lines) == a + b[..m] + block + b[m..]
  {
    ScanHasLines(h, "", lines);
    RewrittenSides(h, us, cs, e);
    OutOfScan(h, us, lines);
    ShiftedIff(h, us, order, cs);
    m := SpliceBehind(a, b, SectionEnd(cs), block);
  }

  /** The same, chunk by chunk: the block lies between x and y, which the scanner ignores. */
  lemma ShiftedChunks(h: Host, us: Updates, order: seq<string>, lines: seq<string>, cs: seq<Chunk>, e: nat,
                      a: seq<Chunk>, b: seq<Chunk>, block: seq<string>) returns (x: seq<Chunk>, y: seq<Chunk>)
    requires forall k :: k in order ==> k in us
    requires cs == Chunks(h, "", lines) && Shifted(h, us, order, cs) && e == UiEnd("", cs)
    requires a == RewriteAll(h, us, cs[..e]) && b == cs[e..] && Ignored(b) && block == BlockLines(us, Pending(cs, order))
    ensures b == x + y && x != [] && x[0] == b[0] && Ignored(x) && Ignored(y)
    ensures UpdateLines(h, us, order, lines) == Flatten(a) + Flatten(x) + block + Flatten(y)
  {
    IgnoredUnchanged(h, us, b);
    IgnoredSlices(h, b, 0);
    var m := ShiftedLines(h, us, order, lines, cs, e, Flatten(a), Flatten(b), block);
    x, y := IgnoredSplit(h, b, m);
  }

  lemma IgnoredSplit(h: Host, b: seq<Chunk>, m: nat) returns (x: seq<Chunk>, y: seq<Chunk>)
    requires Ignored(b) && 0 < m <= |b| && |Flatten(b)| == |b|
    ensures b == x + y && x != [] && x[0] == b[0] && Ignored(x) && Ignored(y)
    ensures Flatten(b)[..m] == Flatten(x) && Flatten(b)[m..] == Flatten(y)
  {
    IgnoredSlices(h, b, m);
    x, y := b[..m], b[m..];
  }

  lemma ShiftedScan(h: Host, us: Updates, order: seq<string>, lines: seq<string>, cs: seq<Chunk>, e: nat,
                    a: seq<Chunk>, b: seq<Chunk>, block: seq<string>) returns (x: seq<Chunk>, y: seq<Chunk>)
    requires HostOk(h) && ValidUpdates(h, us, order) && WellFormed(h, lines) && cs == Chunks(h, "", lines)
    requires Shifted(h, us, order, cs) && e == UiEnd("", cs) && forall c :: c in cs[e..] && c.Header? ==> !InUi(c.name)
    requires a == RewriteAll(h, us, cs[..e]) && b == cs[e..] && block == BlockLines(us, Pending(cs, order))
    ensures Ignored(x) && Ignored(y) && x != [] && WellCut(h, "", a + x + Strays(block) + y)
    ensures UpdateLines(h, us, order, lines) == Flatten(a + x + Strays(block) + y)
  {
    ScanCuts(h, "", lines);
    TailWellCut(h, cs, e, b);
    IgnoredFromHeader(h, b);
    x, y := ShiftedChunks(h, us, order, lines, cs, e, a, b, block);
    HeadWellCut(h, us, order, cs, e);
    BlockNoHeader(h, us, order, Pending(cs, order));
    StrayWellCut(h, a, x, y, block);
  }

  lemma HeadWellCut(h: Host, us: Updates, order: seq<string>, cs: seq<Chunk>, e: nat)
    requires HostOk(h) && ValidUpdates(h, us, order) && WellCut(h, "", cs) && HasUi(cs) && e == UiEnd("", cs)
    ensures WellCut(h, "", RewriteAll(h, us, cs[..e])) && Leave("", RewriteAll(h, us, cs[..e])) == "ui"
  {
    assert cs[..e] + cs[e..] == cs;
    Concat(h, "", cs[..e], cs[e..]);
    UiEndIsUi("", cs);
    RewriteWellCut(h, us, order, "", cs[..e]);
  }

  // ---------------------------------------------------------------- a text on which the splice is shifted

  const EXAMPLE: seq<string> := ["[ui]", "a = [", "]", "[x]"]

  const EXAMPLE_CHUNKS := [Header("[ui]", "ui"), Pair("ui", "a", "[\n]", ["a = [", "]"]), Header("[x]", "x")]

  const EXAMPLE_UPDATES: Updates := map["a" := Bool(true), "b" := Bool(true)]

  lemma ExampleLines()
    ensures Flatten(EXAMPLE_CHUNKS) == EXAMPLE && Split(Join(EXAMPLE)) == EXAMPLE
  {
    var a, b, c := EXAMPLE_CHUNKS[0], EXAMPLE_CHUNKS[1], EXAMPLE_CHUNKS[2];
    assert [a, b, c][1..] == [b, c] && [b, c][1..] == [c] && [c][1..] == [];
    assert Flatten([c]) == ["[x]"];
    assert Flatten([b, c]) == ["a = [", "]"] + ["[x]"];
    assert Flatten([a, b, c]) == ["[ui]"] + (["a = [", "]"] + ["[x]"]);
    SplitJoin(EXAMPLE);
  }

  lemma ExampleScans(h: Host)
    requires PatternsOk(h) && h.header("[x]") == Some("x") && !h.balanced("[") && h.balanced("[\n]")
    ensures Scan(h, Join(EXAMPLE)) == EXAMPLE_CHUNKS && WellFormed(h, Split(Join(EXAMPLE)))
  {
    var a, b, c := EXAMPLE_CHUNKS[0], EXAMPLE_CHUNKS[1], EXAMPLE_CHUNKS[2];
    ExampleLines();
    assert Assignment("a", "[") == "a = [";
    ExampleFits(h, b);
    assert [a, b, c][1..] == [b, c] && [b, c][1..] == [c] && [c][1..] == [];
    assert WellCut(h, "x", []);
    assert WellCut(h, "ui", [c]);
    assert WellCut(h, "ui", [b, c]);
    assert WellCut(h, "", EXAMPLE_CHUNKS);
    WellCutScans(h, "", EXAMPLE_CHUNKS);
  }

  lemma ExampleFits(h: Host, b: Chunk)
    requires PatternsOk(h) && !h.balanced("[") && h.balanced("[\n]") && b == Pair("ui", "a", "[\n]", ["a = [", "]"])
    ensures Fits(h, "ui", b)
  {
    assert Assignment("a", "[") == "a = [" && IsKey("a") && StartsSolid("[") && !HasTerminator("[");
    assert ["a = [", "]"][1..] == ["]"] && ["]"][1..] == [];
    assert "[" + "\n" + "]" == "[\n]";
    assert Grown("[", ["]"]) == Grown("[\n]", []);
    assert Closes(h, "[\n]", []) && Closes(h, "[", ["]"]);
  }

  lemma ExampleIsShifted(h: Host)
    ensures Shifted(h, EXAMPLE_UPDATES, ["a", "b"], EXAMPLE_CHUNKS)
    ensures forall c :: c in EXAMPLE_CHUNKS[UiEnd("", EXAMPLE_CHUNKS)..] && c.Header? ==> !InUi(c.name)
    ensures "b" in Pending(EXAMPLE_CHUNKS, ["a", "b"])
  {
    var a, b, c := EXAMPLE_CHUNKS[0], EXAMPLE_CHUNKS[1], EXAMPLE_CHUNKS[2];
    assert [a, b, c][1..] == [b, c] && [b, c][1..] == [c];
    assert UiEnd("ui", [c]) == 0 && UiEnd("ui", [b, c]) == 1 && UiEnd("", EXAMPLE_CHUNKS) == 2;
    assert EXAMPLE_CHUNKS[2..] == [c] && EXAMPLE_CHUNKS[..2] == [a, b];
    assert a in EXAMPLE_CHUNKS && IsUiHeader(a);
    assert b in EXAMPLE_CHUNKS[..2] && Rewrites(h, EXAMPLE_UPDATES, b) && |b.lines| > 1;
    assert !IsUiKey(EXAMPLE_CHUNKS, "b");
    assert |"x"| == 1 && |"ui"| == 2 && |"ui."| == 3;
  }

  predicate ReadsExample(h: Host) {
    h.header("[x]") == Some("x") && !h.balanced("[") && h.balanced("[\n]")
  }

  lemma ExampleValid(h: Host)
    ensures ValidUpdates(h, EXAMPLE_UPDATES, ["a", "b"])
  {
    assert IsKey("a") && IsKey("b");
  }

  lemma ExampleLosesKey(h: Host)
    requires HostOk(h) && ReadsExample(h)
    ensures ValidUpdates(h, EXAMPLE_UPDATES, ["a", "b"])
    ensures "b" !in ReadUi(h, Update(h, EXAMPLE_UPDATES, ["a", "b"], Join(EXAMPLE)))
  {
    ExampleValid(h);
    ExampleScans(h);
    ExampleIsShifted(h);
    ShiftLosesKeys(h, EXAMPLE_UPDATES, ["a", "b"], Join(EXAMPLE));
  }

  lemma TomlReadsExample(json: string -> Option<Value>, number: string -> bool, inherited: set<string>)
    ensures ReadsExample(TomlHost(json, number, inherited))
  {
    BracketedReads("x");
    assert "[" + "x" + "]" == "[x]" && Trim("x") == "x";
    OpenListUnbalanced();
  }

  /** A text and updates, concretely, for the editor's own patterns and reader: the
      list a is rewritten to one line, and the new key b lands behind the next
      header and is lost. */
  lemma ShiftedExampleLosesKey(json: string -> Option<Value>, number: string -> bool, inherited: set<string>, h: Host)
    requires LibraryOk(json, number) && h == TomlHost(json, number, inherited)
    ensures ValidUpdates(h, EXAMPLE_UPDATES, ["a", "b"])
    ensures "b" !in ReadUi(h, Update(h, EXAMPLE_UPDATES, ["a", "b"], Join(EXAMPLE)))
  {
    TomlHostOk(json, number, inherited);
    TomlReadsExample(json, number, inherited);
    ExampleLosesKey(h);
  }

  // ---------------------------------------------------------------- a text on which updates are not expressible

  const PLAIN: seq<string> := ["[ui]", "toString = true"]

  const PLAIN_CHUNKS := [Header("[ui]", "ui"), Pair("ui", "toString", "true", ["toString = true"])]

  lemma PlainReads(h: Host)
    requires HostOk(h)
    ensures h.read("true") == Bool(true) && h.balanced("true")
    ensures h.header("toString = true") == None && h.pair("toString = true") == Some(("toString", "true"))
  {
    assert Serialize(Bool(true)) == "true" && Scalar(h.number, Bool(true));
    assert Assignment("toString", "true") == "toString = true" && IsKey("toString") && StartsSolid("true") && !HasTerminator("true");
  }

  lemma PlainCut(h: Host)
    requires HostOk(h)
    ensures WellCut(h, "", PLAIN_CHUNKS) && Flatten(PLAIN_CHUNKS) == PLAIN
  {
    var a, b := PLAIN_CHUNKS[0], PLAIN_CHUNKS[1];
    PlainReads(h);
    assert [a, b][1..] == [b] && [b][1..] == [] && b.lines[1..] == [];
    assert WellCut(h, "ui", []) && WellCut(h, "ui", [b]);
    assert Flatten([b]) == ["toString = true"] && Flatten([a, b]) == ["[ui]"] + ["toString = true"];
  }

  lemma PlainUi(h: Host)
    requires HostOk(h)
    ensures Ui(h.read, PLAIN_CHUNKS) == map["toString" := Bool(true)]
  {
    var a, b := PLAIN_CHUNKS[0], PLAIN_CHUNKS[1];
    PlainReads(h);
    assert [a, b][1..] == [b] && [b][1..] == [];
    assert Ui(h.read, [b]) == map["toString" := Bool(true)];
  }

  lemma PlainScans(h: Host)
    requires HostOk(h)
    ensures Scan(h, Join(PLAIN)) == PLAIN_CHUNKS && WellFormed(h, Split(Join(PLAIN)))
    ensures ReadUi(h, Join(PLAIN)) == map["toString" := Bool(true)]
  {
    PlainSplits();
    PlainCut(h);
    WellCutScans(h, "", PLAIN_CHUNKS);
    PlainReads(h);
    PlainUi(h);
  }

  lemma PlainSplits()
    ensures Split(Join(PLAIN)) == PLAIN
  {
    assert OneLine("[ui]") && OneLine("toString = true");
    SplitJoin(PLAIN);
  }

  lemma PlainNotShifted(h: Host, us: Updates, order: seq<string>)
    ensures !Shifted(h, us, order, PLAIN_CHUNKS)
  {
    var a, b := PLAIN_CHUNKS[0], PLAIN_CHUNKS[1];
    assert [a, b][1..] == [b] && [b][1..] == [];
    assert UiEnd("ui", [b]) == 1 && UiEnd("", PLAIN_CHUNKS) == 2;
  }

  /** One update of one key of that text. */
  lemma PlainUpdated(json: string -> Option<Value>, number: string -> bool, inherited: set<string>, h: Host, v: Value)
    requires LibraryOk(json, number) && h == TomlHost(json, number, inherited) && Scalar(number, v)
    ensures ValidUpdates(h, map["a" := v], ["a"])
    ensures Overlaid(h, map["a" := v], map["toString" := Bool(true)], ReadUi(h, Update(h, map["a" := v], ["a"], Join(PLAIN))))
  {
    TomlHostOk(json, number, inherited);
    assert IsKey("a");
    PlainScans(h);
    PlainNotShifted(h, map["a" := v], ["a"]);
    UpdateIsOverlaid(h, map["a" := v], ["a"], Join(PLAIN));
  }

  /** A string with a line separator is saved, and the key is not in the table that is read back. */
  lemma SeparatorExampleLosesKey(json: string -> Option<Value>, number: string -> bool, inherited: set<string>, h: Host)
    requires LibraryOk(json, number) && h == TomlHost(json, number, inherited)
    ensures ValidUpdates(h, map["a" := Str("\U{2028}")], ["a"])
    ensures "a" !in ReadUi(h, Update(h, map["a" := Str("\U{2028}")], ["a"], Join(PLAIN)))
  {
    var v := Str("\U{2028}");
    assert '\U{2028}' in v.s && HasSeparator(v);
    PlainUpdated(json, number, inherited, h, v);
  }

  /** A key with a name every object inherits is overwritten when another key is saved. */
  lemma InheritedExampleIsOverwritten(json: string -> Option<Value>, number: string -> bool, inherited: set<string>, h: Host)
    requires LibraryOk(json, number) && h == TomlHost(json, number, inherited) && "toString" in inherited
    ensures ValidUpdates(h, map["a" := Bool(true)], ["a"]) && ReadUi(h, Join(PLAIN)) == map["toString" := Bool(true)]
    ensures var after := ReadUi(h, Update(h, map["a" := Bool(true)], ["a"], Join(PLAIN)));
      "toString" in after && after["toString"] == Str("undefined")
  {
    TomlHostOk(json, number, inherited);
    PlainScans(h);
    PlainUpdated(json, number, inherited, h, Bool(true));
  }

  // ---------------------------------------------------------------- the two passes as the editor runs them

  datatype Parsed = Parsed(ui: Table, uiTables: Tables, entries: seq<Entry>, uiHeaderLine: int, sectionEndLine: nat)

  /** The line of the first `[ui]` header, or -1. */
  function FirstUi(i: nat, cs: seq<Chunk>): int
    decreases |cs|
  {
    if cs == [] then -1 else if IsUiHeader(cs[0]) then i else FirstUi(i + |LinesOf(cs[0])|, cs[1..])
  }

  /** The line at which the first `[ui]` section ends, the first chunk starting at line i. */
  function EndFrom(i: nat, section: string, cs: seq<Chunk>): nat
    decreases |cs|
  {
    if cs == [] || (section == "ui" && cs[0].Header?) then i
    else EndFrom(i + |LinesOf(cs[0])|, Enter(section, cs[0]), cs[1..])
  }

  lemma {:induction false} EndFromIsUiEnd(i: nat, section: string, cs: seq<Chunk>)
    ensures EndFrom(i, section, cs) == i + |Flatten(cs[..UiEnd(section, cs)])|
    decreases |cs|
  {
    if cs != [] && !(section == "ui" && cs[0].Header?) {
      EndFromIsUiEnd(i + |LinesOf(cs[0])|, Enter(section, cs[0]), cs[1..]);
      var e := UiEnd(section, cs);
      assert cs[..e][1..] == cs[1..][..e - 1];
    }
  }

  /** What the scan yields once the chunks from line i on are added to p. */
  function Finish(h: Host, n: nat, i: nat, section: string, p: Parsed, cs: seq<Chunk>): Parsed {
    Parsed(
      p.ui + Ui(h.read, cs), SubTables(h.read, p.uiTables, cs), p.entries + EntriesAt(h.read, i, cs),
      if p.uiHeaderLine >= 0 then p.uiHeaderLine else FirstUi(i, cs),
      if p.sectionEndLine != n then p.sectionEndLine else EndFrom(i, section, cs))
  }

  function ParsedFrom(h: Host, cs: seq<Chunk>): Parsed {
    Parsed(Ui(h.read, cs), SubTables(h.read, map[], cs), EntriesAt(h.read, 0, cs), FirstUi(0, cs), SectionEnd(cs))
  }

  lemma {:induction false} FirstUiIffHasUi(i: nat, cs: seq<Chunk>)
    ensures FirstUi(i, cs) >= 0 <==> HasUi(cs)
    decreases |cs|
  {
    if cs != [] {
      FirstUiIffHasUi(i + |LinesOf(cs[0])|, cs[1..]);
      if HasUi(cs) && !IsUiHeader(cs[0]) {
        var c :| c in cs && IsUiHeader(c);
        assert c in cs[1..];
      }
      assert forall c :: c in cs[1..] ==> c in cs;
    }
  }

  lemma FinishStarts(h: Host, n: nat, cs: seq<Chunk>)
    ensures Finish(h, n, 0, "", Parsed(map[], map[], [], -1, n), cs) == ParsedFrom(h, cs)
  {
    EndFromIsUiEnd(0, "", cs);
    assert map[] + Ui(h.read, cs) == Ui(h.read, cs);
    assert [] + EntriesAt(h.read, 0, cs) == EntriesAt(h.read, 0, cs);
  }

  lemma FinishEnds(h: Host, n: nat, section: string, p: Parsed)
    requires p.uiHeaderLine >= -1
    ensures Finish(h, n, n, section, p, []) == p
  {
    assert p.ui + map[] == p.ui;
  }

  function HeaderSeen(p: Parsed, n: nat, section: string, name: string, i: nat): Parsed {
    p.(sectionEndLine := if section == "ui" && p.uiHeaderLine >= 0 && p.sectionEndLine == n then i else p.sectionEndLine,
       uiHeaderLine := if name == "ui" && p.uiHeaderLine < 0 then i else p.uiHeaderLine)
  }

  lemma FinishHeader(h: Host, n: nat, i: nat, section: string, p: Parsed, cs: seq<Chunk>)
    requires cs != [] && cs[0].Header? && i < n && (section == "ui" ==> p.uiHeaderLine >= 0)
    ensures Finish(h, n, i, section, p, cs) == Finish(h, n, i + 1, cs[0].name, HeaderSeen(p, n, section, cs[0].name, i), cs[1..])
  {
    EmptyMergeLeft(Ui(h.read, cs[1..]));
    EntriesAssociate(p.entries, [], EntriesAt(h.read, i + 1, cs[1..]));
  }

  lemma FinishOther(h: Host, n: nat, i: nat, section: string, p: Parsed, cs: seq<Chunk>)
    requires cs != [] && cs[0].Other?
    ensures Finish(h, n, i, section, p, cs) == Finish(h, n, i + 1, section, p, cs[1..])
  {
    EmptyMergeLeft(Ui(h.read, cs[1..]));
    EntriesAssociate(p.entries, [], EntriesAt(h.read, i + 1, cs[1..]));
  }

  lemma FinishPair(h: Host, n: nat, i: nat, section: string, p: Parsed, cs: seq<Chunk>, c: Chunk)
    requires cs != [] && cs[0] == c && c.Pair?
    ensures Finish(h, n, i, section, p, cs) == Finish(h, n, i + |c.lines|, section, Enrolled(h, p, i, c), cs[1..])
  {
    MergeAssociates(p.ui, UiPart(h.read, c), Ui(h.read, cs[1..]));
    EntriesAssociate(p.entries, OwnEntry(h.read, i, c), EntriesAt(h.read, i + |c.lines|, cs[1..]));
  }

  /** An assignment filed under the table or one of its sub-tables. */
  function Enrolled(h: Host, p: Parsed, i: nat, c: Chunk): Parsed {
    p.(ui := p.ui + UiPart(h.read, c), uiTables := Put(h.read, p.uiTables, c), entries := p.entries + OwnEntry(h.read, i, c))
  }

  lemma EmptyMergeLeft(t: Table)
    ensures map[] + t == t
  {
  }

  lemma EntriesAssociate(a: seq<Entry>, b: seq<Entry>, c: seq<Entry>)
    ensures a + (b + c) == a + b + c
  {
  }

  lemma {:induction false} GrownAppend(value: string, more: seq<string>, last: string)
    ensures Grown(value, more + [last]) == Grown(value, more) + "\n" + last
    decreases |more|
  {
    if more == [] {
      assert more + [last] == [last] && [last][1..] == [];
    } else {
      assert (more + [last])[1..] == more[1..] + [last];
      GrownAppend(value + "\n" + more[0], more[1..], last);
    }
  }

  /** Take lines until the value is balanced. */
  method ReadValue(h: Host, lines: seq<string>, i: nat, first: string) returns (valueText: string, end: nat)
    requires i < |lines|
    ensures end == i + Extent(h, first, lines[i + 1..])
    ensures valueText == Grown(first, lines[i + 1..end + 1])
  {
    valueText, end := first, i;
    var balanced := h.balanced(valueText);
    while !balanced && end + 1 < |lines|
      invariant i <= end < |lines| && balanced == h.balanced(valueText)
      invariant Extent(h, first, lines[i + 1..]) == end - i + Extent(h, valueText, lines[end + 1..])
      invariant valueText == Grown(first, lines[i + 1..end + 1])
      decreases |lines| - end
    {
      GrownAppend(first, lines[i + 1..end + 1], lines[end + 1]);
      end := end + 1;
      valueText := valueText + "\n" + lines[end];
      assert lines[i + 1..end + 1] == lines[i + 1..end] + [lines[end]];
      assert lines[end..][1..] == lines[end + 1..];
      balanced := h.balanced(valueText);
    }
  }

  lemma LineChunk(h: Host, section: string, lines: seq<string>, i: nat)
    requires i < |lines|
    ensures h.header(lines[i]).Some? ==> ChunkAt(h, section, lines[i..]) == Header(lines[i], h.header(lines[i]).value)
    ensures h.header(lines[i]).None? && (!InUi(section) || h.pair(lines[i]).None?) ==> ChunkAt(h, section, lines[i..]) == Other(lines[i])
  {
  }
  lemma PairChunk(h: Host, section: string, lines: seq<string>, i: nat, key: string, first: string, valueText: string, next: nat, c: Chunk)
    requires i < |lines| && h.header(lines[i]).None? && InUi(section) && h.pair(lines[i]) == Some((key, first))
    requires next == i + 1 + Extent(h, first, lines[i + 1..]) && valueText == Grown(first, lines[i + 1..next])
    requires c == ChunkAt(h, section, lines[i..])
    ensures c == Pair(section, key, valueText, lines[i..next]) && |c.lines| == next - i
  {
    assert lines[i..][1..] == lines[i + 1..];
    assert lines[i..][1..next - i] == lines[i + 1..next];
    assert lines[i..][..next - i] == lines[i..next];
  }

  lemma ChunksStep(h: Host, section: string, lines: seq<string>, i: nat, c: Chunk, next: nat, into: string)
    requires i < |lines| && c == ChunkAt(h, section, lines[i..]) && next == i + |LinesOf(c)| && into == Enter(section, c)
    ensures i < next <= |lines|
    ensures var cs := Chunks(h, section, lines[i..]); cs != [] && cs[0] == c && cs[1..] == Chunks(h, into, lines[next..])
  {
    ChunkAtFits(h, section, lines[i..]);
    assert lines[i..][|LinesOf(c)|..] == lines[next..];
  }

  /** One chunk at line i added to what the scan has found. */
  function Absorb(h: Host, n: nat, i: nat, section: string, p: Parsed, c: Chunk): Parsed {
    match c
    case Header(_, name) => HeaderSeen(p, n, section, name, i)
    case Other(_) => p
    case Pair(_, _, _, _) => Enrolled(h, p, i, c)
  }

  /** The scan, chunk by chunk. */
  function ScanOn(h: Host, n: nat, i: nat, section: string, p: Parsed, cs: seq<Chunk>): Parsed
    decreases |cs|
  {
    if cs == [] then p else ScanOn(h, n, i + |LinesOf(cs[0])|, Enter(section, cs[0]), Absorb(h, n, i, section, p, cs[0]), cs[1..])
  }

  /** Scanning chunk by chunk yields the whole at the end. */
  lemma {:induction false} ScanOnFinishes(h: Host, n: nat, i: nat, section: string, p: Parsed, cs: seq<Chunk>)
    requires i + |Flatten(cs)| == n && AllHaveLines(cs) && p.uiHeaderLine >= -1 && (section == "ui" ==> p.uiHeaderLine >= 0)
    ensures ScanOn(h, n, i, section, p, cs) == Finish(h, n, i, section, p, cs)
    decreases |cs|
  {
    if cs == [] {
      FinishEnds(h, n, section, p);
    } else {
      TailHasLines(cs);
      ScanOnFinishes(h, n, i + |LinesOf(cs[0])|, Enter(section, cs[0]), Absorb(h, n, i, section, p, cs[0]), cs[1..]);
      match cs[0]
      case Header(_, _) => FinishHeader(h, n, i, section, p, cs);
      case Other(_) => FinishOther(h, n, i, section, p, cs);
      case Pair(_, _, _, _) => FinishPair(h, n, i, section, p, cs, cs[0]);
    }
  }

  lemma ScanOnIsParsed(h: Host, lines: seq<string>)
    ensures ScanOn(h, |lines|, 0, "", Parsed(map[], map[], [], -1, |lines|), Chunks(h, "", lines)) == ParsedFrom(h, Chunks(h, "", lines))
  {
    ScanKeepsLines(h, "", lines);
    ScanHasLines(h, "", lines);
    ScanOnFinishes(h, |lines|, 0, "", Parsed(map[], map[], [], -1, |lines|), Chunks(h, "", lines));
    FinishStarts(h, |lines|, Chunks(h, "", lines));
  }

  /** What scanning on from line i ends in. */
  function Ahead(h: Host, lines: seq<string>, i: nat, section: string, p: Parsed): Parsed
    requires i <= |lines|
  {
    ScanOn(h, |lines|, i, section, p, Chunks(h, section, lines[i..]))
  }

  lemma AheadStep(h: Host, lines: seq<string>, i: nat, section: string, p: Parsed, c: Chunk, next: nat, into: string, p': Parsed)
    requires i < |lines| && c == ChunkAt(h, section, lines[i..]) && next == i + |LinesOf(c)|
    requires into == Enter(section, c) && p' == Absorb(h, |lines|, i, section, p, c)
    ensures i < next <= |lines| && Ahead(h, lines, i, section, p) == Ahead(h, lines, next, into, p')
  {
    ChunksStep(h, section, lines, i, c, next, into);
    ScanOnStep(h, |lines|, i, section, p, Chunks(h, section, lines[i..]), c, next, into, p', Chunks(h, into, lines[next..]));
  }

  lemma ScanOnStep(h: Host, total: nat, i: nat, section: string, p: Parsed, cs: seq<Chunk>, c: Chunk, next: nat, into: string, p': Parsed, rest: seq<Chunk>)
    requires cs != [] && cs[0] == c && cs[1..] == rest && next == i + |LinesOf(c)|
    requires into == Enter(section, c) && p' == Absorb(h, total, i, section, p, c)
    ensures ScanOn(h, total, i, section, p, cs) == ScanOn(h, total, next, into, p', rest)
  {
  }

  /** File a value under the table or one of its sub-tables. */
  method Enroll(h: Host, p: Parsed, section: string, key: string, valueText: string, i: nat, end: nat, ghost taken: seq<string>) returns (p': Parsed)
    requires InUi(section) && i + |taken| == end + 1
    ensures p' == Enrolled(h, p, i, Pair(section, key, valueText, taken))
  {
    var value := h.read(valueText);
    if section == "ui" {
      p' := p.(ui := p.ui[key := value], entries := p.entries + [Entry(key, value, i, end)]);
      assert p'.ui == p.ui + map[key := value];
    } else {
      var sub := section[3..];
      var table := if sub in p.uiTables then p.uiTables[sub] else map[];
      p' := p.(uiTables := p.uiTables[sub := table[key := value]]);
      EmptyMerge(p.ui);
    }
  }

  /** A header ends the section it stands in and may open the table. */
  method SeeHeader(p: Parsed, n: nat, section: string, name: string, i: nat) returns (p': Parsed)
    ensures p' == HeaderSeen(p, n, section, name, i)
  {
    p' := p;
    if section == "ui" && p.uiHeaderLine >= 0 && p.sectionEndLine == n {
      p' := p'.(sectionEndLine := i);
    }
    if name == "ui" && p.uiHeaderLine < 0 {
      p' := p'.(uiHeaderLine := i);
    }
  }

  method ScanPair(h: Host, lines: seq<string>, i: nat, section: string, p: Parsed, key: string, first: string)
    returns (next: nat, p': Parsed)
    requires i < |lines| && h.header(lines[i]).None? && InUi(section) && h.pair(lines[i]) == Some((key, first))
    ensures i < next <= |lines| && Ahead(h, lines, i, section, p) == Ahead(h, lines, next, section, p')
  {
    var valueText, end := ReadValue(h, lines, i, first);
    next := end + 1;
    p' := Enroll(h, p, section, key, valueText, i, end, lines[i..next]);
    PairScanned(h, lines, i, section, p, key, first, valueText, next, p');
  }

  lemma PairScanned(h: Host, lines: seq<string>, i: nat, section: string, p: Parsed, key: string, first: string, valueText: string, next: nat, p': Parsed)
    requires i < |lines| && h.header(lines[i]).None? && InUi(section) && h.pair(lines[i]) == Some((key, first))
    requires next == i + 1 + Extent(h, first, lines[i + 1..]) && valueText == Grown(first, lines[i + 1..next])
    requires p' == Enrolled(h, p, i, Pair(section, key, valueText, lines[i..next]))
    ensures Ahead(h, lines, i, section, p) == Ahead(h, lines, next, section, p')
  {
    var c := ChunkAt(h, section, lines[i..]);
    PairChunk(h, section, lines, i, key, first, valueText, next, c);
    PairStep(h, lines, i, section, p, c, next, p');
  }

  lemma PairStep(h: Host, lines: seq<string>, i: nat, section: string, p: Parsed, c: Chunk, next: nat, p': Parsed)
    requires i < |lines| && c == ChunkAt(h, section, lines[i..]) && c.Pair? && next == i + |c.lines| && p' == Enrolled(h, p, i, c)
    ensures next <= |lines| && Ahead(h, lines, i, section, p) == Ahead(h, lines, next, section, p')
  {
    AheadStep(h, lines, i, section, p, c, next, section, p');
  }

  lemma HeaderStep(h: Host, lines: seq<string>, i: nat, section: string, p: Parsed, name: string)
    requires i < |lines| && h.header(lines[i]) == Some(name)
    ensures Ahead(h, lines, i, section, p) == Ahead(h, lines, i + 1, name, HeaderSeen(p, |lines|, section, name, i))
  {
    LineChunk(h, section, lines, i);
    AheadStep(h, lines, i, section, p, Header(lines[i], name), i + 1, name, HeaderSeen(p, |lines|, section, name, i));
  }

  lemma OtherStep(h: Host, lines: seq<string>, i: nat, section: string, p: Parsed)
    requires i < |lines| && h.header(lines[i]).None? && (!InUi(section) || h.pair(lines[i]).None?)
    ensures Ahead(h, lines, i, section, p) == Ahead(h, lines, i + 1, section, p)
  {
    LineChunk(h, section, lines, i);
    AheadStep(h, lines, i, section, p, Other(lines[i]), i + 1, section, p);
  }

  /** Everything at line i: a header, an assignment with all its lines, or a line of no interest. */
  method ScanAt(h: Host, lines: seq<string>, i: nat, section: string, p: Parsed)
    returns (next: nat, section': string, p': Parsed)
    requires i < |lines|
    ensures i < next <= |lines| && Ahead(h, lines, i, section, p) == Ahead(h, lines, next, section', p')
  {
    var header, pair := h.header(lines[i]), h.pair(lines[i]);
    if header.Some? {
      HeaderStep(h, lines, i, section, p, header.value);
      p' := SeeHeader(p, |lines|, section, header.value, i);
      next, section' := i + 1, header.value;
    } else if !InUi(section) || pair.None? {
      OtherStep(h, lines, i, section, p);
      next, section', p' := i + 1, section, p;
    } else {
      section' := section;
      next, p' := ScanPair(h, lines, i, section, p, pair.value.0, pair.value.1);
    }
  }

  method ParseUiTable(h: Host, text: string) returns (p: Parsed)
    ensures p == ParsedFrom(h, Scan(h, text))
  {
    var lines := Split(text);
    var i, section := 0, "";
    p := Parsed(map[], map[], [], -1, |lines|);
    ScanOnIsParsed(h, lines);
    assert lines[0..] == lines;
    while i < |lines|
      invariant i <= |lines| && Ahead(h, lines, i, section, p) == ParsedFrom(h, Scan(h, text))
      decreases |lines| - i
    {
      i, section, p := ScanAt(h, lines, i, section, p);
    }
  }

  /** The keys that the second pass rewrites from line i on. */
  function AppliedFrom(h: Host, us: Updates, n: nat, entries: seq<Entry>, i: nat): set<string>
    decreases n - i
  {
    if i >= n then {}
    else
      match Find(entries, i)
      case Some(e) =>
        if NewText(h, us, e.key).Some? then {e.key} + AppliedFrom(h, us, n, entries, if e.end < i then i + 1 else e.end + 1)
        else AppliedFrom(h, us, n, entries, i + 1)
      case None => AppliedFrom(h, us, n, entries, i + 1)
  }

  predicate RewrittenKey(h: Host, us: Updates, cs: seq<Chunk>, k: string) {
    exists c :: c in cs && Rewrites(h, us, c) && c.key == k
  }

  lemma {:induction false} AppliedSkips(h: Host, us: Updates, n: nat, entries: seq<Entry>, i: nat, j: nat)
    requires i <= j <= n && forall k :: i <= k < j ==> Find(entries, k) == None
    ensures AppliedFrom(h, us, n, entries, i) == AppliedFrom(h, us, n, entries, j)
    decreases j - i
  {
    if i < j {
      AppliedSkips(h, us, n, entries, i + 1, j);
    }
  }

  lemma AppliedOne(h: Host, us: Updates, lines: seq<string>, entries: seq<Entry>, i: nat, c: Chunk, n: nat)
    requires n == |LinesOf(c)| > 0 && i + n <= |lines| && FoundAt(h.read, entries, i, c)
    ensures AppliedFrom(h, us, |lines|, entries, i) ==
      (if Rewrites(h, us, c) then {c.key} else {}) + AppliedFrom(h, us, |lines|, entries, i + n)
  {
    if IsUiPair(c) {
      assert Find(entries, i) == Some(EntryOf(h.read, i, c));
    }
    if !Rewrites(h, us, c) {
      AppliedSkips(h, us, |lines|, entries, i + 1, i + n);
    }
  }

  lemma {:induction false} AppliedIs(h: Host, us: Updates, lines: seq<string>, entries: seq<Entry>, i: nat, cs: seq<Chunk>)
    requires Matches(h.read, lines, entries, i, cs)
    ensures forall k :: k in AppliedFrom(h, us, |lines|, entries, i) <==> RewrittenKey(h, us, cs, k)
    decreases |cs|
  {
    if cs != [] {
      var n := |LinesOf(cs[0])|;
      AppliedOne(h, us, lines, entries, i, cs[0], n);
      AppliedIs(h, us, lines, entries, i + n, cs[1..]);
      forall k ensures RewrittenKey(h, us, cs, k) <==> RewrittenKey(h, us, cs[1..], k) || (Rewrites(h, us, cs[0]) && cs[0].key == k) {
        if RewrittenKey(h, us, cs[1..], k) {
          var c :| c in cs[1..] && Rewrites(h, us, c) && c.key == k;
          assert c in cs;
        }
      }
    }
  }

  /** An updated key is still to be added exactly when the pass did not rewrite it. */
  lemma AppliedOfScan(h: Host, us: Updates, lines: seq<string>, entries: seq<Entry>)
    requires entries == EntriesAt(h.read, 0, Chunks(h, "", lines))
    ensures forall k :: k in us ==> (k in AppliedFrom(h, us, |lines|, entries, 0) <==> IsUiKey(Chunks(h, "", lines), k))
  {
    var cs := Chunks(h, "", lines);
    ScanKeepsLines(h, "", lines);
    ScanHasLines(h, "", lines);
    ScanMatches(h.read, lines, 0, cs, EntriesAt(h.read, 0, cs));
    AppliedIs(h, us, lines, entries, 0, cs);
    forall k | k in us ensures RewrittenKey(h, us, cs, k) <==> IsUiKey(cs, k) {
      if IsUiKey(cs, k) {
        var c :| c in cs && IsUiPair(c) && c.key == k;
        assert Rewrites(h, us, c);
      }
    }
  }

  /** The second pass. */
  method RewriteEntries(h: Host, us: Updates, lines: seq<string>, entries: seq<Entry>) returns (out: seq<string>, applied: set<string>)
    ensures out == OutFrom(h, us, lines, entries, 0) && applied == AppliedFrom(h, us, |lines|, entries, 0)
  {
    out, applied := [], {};
    var i := 0;
    while i < |lines|
      invariant out + OutFrom(h, us, lines, entries, i) == OutFrom(h, us, lines, entries, 0)
      invariant applied + AppliedFrom(h, us, |lines|, entries, i) == AppliedFrom(h, us, |lines|, entries, 0)
      decreases |lines| - i
    {
      var entry := Find(entries, i);
      if entry.Some? && NewText(h, us, entry.value.key).Some? {
        var next := if entry.value.end < i then i + 1 else entry.value.end + 1;
        var line := Assignment(entry.value.key, NewText(h, us, entry.value.key).value);
        LinesAssociate(out, [line], OutFrom(h, us, lines, entries, next));
        out := out + [line];
        applied := applied + {entry.value.key};
        i := next;
      } else {
        CopiedOut(h, us, lines, entries, i);
        LinesAssociate(out, [lines[i]], OutFrom(h, us, lines, entries, i + 1));
        out := out + [lines[i]];
        i := i + 1;
      }
    }
    assert out + [] == out;
  }

  lemma LinesAssociate(a: seq<string>, b: seq<string>, c: seq<string>)
    ensures a + (b + c) == a + b + c
  {
  }

  /** The updated keys that were not applied, as assignment lines. */
  method PendingBlock(us: Updates, order: seq<string>, applied: set<string>, ghost cs: seq<Chunk>) returns (block: seq<string>)
    requires forall k :: k in order ==> k in us && (k in applied <==> IsUiKey(cs, k))
    ensures block == BlockLines(us, Pending(cs, order))
    ensures block == [] <==> Pending(cs, order) == []
  {
    block := [];
    var i := |order|;
    assert order[i..] == [];
    while i > 0
      invariant 0 <= i <= |order| && block == BlockLines(us, Pending(cs, order[i..]))
      invariant block == [] <==> Pending(cs, order[i..]) == []
    {
      i := i - 1;
      var key := order[i];
      assert order[i..][1..] == order[i + 1..];
      if key !in applied {
        block := [Assignment(key, Serialize(us[key]))] + block;
        assert ([key] + Pending(cs, order[i + 1..]))[1..] == Pending(cs, order[i + 1..]);
      }
    }
    assert order[0..] == order;
  }

  /** Add the new assignments where the first pass saw the table end, or under a new header. */
  method AddBlock(out: seq<string>, uiHeaderLine: int, sectionEndLine: nat, block: seq<string>) returns (r: seq<string>)
    ensures r == if uiHeaderLine >= 0 then Splice(out, sectionEndLine, block) else out + Flatten(NewHeader(out)) + block
  {
    if uiHeaderLine >= 0 {
      return Splice(out, sectionEndLine, block);
    }
    HeaderLines(out);
    r := out;
    if |out| > 0 && out[|out| - 1] != "" {
      r := r + [""];
    }
    r := r + ["[ui]"] + block;
  }

  method UpdateUiTable(h: Host, us: Updates, order: seq<string>, text: string) returns (r: string)
    requires forall k :: k in order ==> k in us
    ensures r == Update(h, us, order, text)
  {
    var p := ParseUiTable(h, text);
    var lines := Split(text);
    ghost var cs := Scan(h, text);
    var out, applied := RewriteEntries(h, us, lines, p.entries);
    AppliedOfScan(h, us, lines, p.entries);
    var block := PendingBlock(us, order, applied, cs);
    if block != [] {
      FirstUiIffHasUi(0, cs);
      out := AddBlock(out, p.uiHeaderLine, p.sectionEndLine, block);
    }
    r := TrimNewlines(Join(out)) + "\n";
  }

  lemma HeaderLines(lines: seq<string>)
    ensures Flatten(NewHeader(lines)) == if lines != [] && lines[|lines| - 1] != "" then ["", "[ui]"] else ["[ui]"]
  {
    var gap, top := Other(""), Header("[ui]", "ui");
    assert [top][1..] == [] && Flatten([top]) == ["[ui]"];
    assert [gap, top][1..] == [top] && Flatten([gap, top]) == [""] + ["[ui]"];
    assert [] + [top] == [top] && [gap] + [top] == [gap, top];
  }

  datatype SaveResult = Rejected(key: string) | Saved(text: string)

  predicate ValidSetting(h: Host, key: string, v: Value) {
    IsKey(key) && '.' !in key && Scalar(h.number, v)
  }

  /** The first setting that does not pass the checks, or the number of settings. */
  method FirstInvalid(h: Host, us: Updates, order: seq<string>) returns (i: nat)
    requires forall k :: k in order ==> k in us
    ensures i <= |order| && forall j :: 0 <= j < i ==> ValidSetting(h, order[j], us[order[j]])
    ensures i < |order| ==> !ValidSetting(h, order[i], us[order[i]])
  {
    i := 0;
    while i < |order| && ValidSetting(h, order[i], us[order[i]])
      invariant i <= |order| && forall j :: 0 <= j < i ==> ValidSetting(h, order[j], us[order[j]])
    {
      i := i + 1;
    }
  }

  lemma SettingsValid(h: Host, us: Updates, order: seq<string>)
    requires (forall k :: k in order ==> k in us) && (forall k :: k in us ==> k in order)
    ensures ValidUpdates(h, us, order) <==> forall j :: 0 <= j < |order| ==> ValidSetting(h, order[j], us[order[j]])
  {
    if forall j :: 0 <= j < |order| ==> ValidSetting(h, order[j], us[order[j]]) {
      forall k | k in us ensures ValidSetting(h, k, us[k]) {
        var j :| 0 <= j < |order| && order[j] == k;
      }
    }
  }

  /** Save checked updates; nothing is written when one of them is not a scalar
      under a plain key.  A missing file counts as an empty one. */
  method SaveHostUi(h: Host, us: Updates, order: seq<string>, existing: Option<string>) returns (r: SaveResult)
    requires (forall k :: k in order ==> k in us) && (forall k :: k in us ==> k in order)
    ensures r.Saved? <==> ValidUpdates(h, us, order)
    ensures r.Saved? ==> r.text == Update(h, us, order, if existing.Some? then existing.value else "")
    ensures r.Rejected? ==> r.key in us && !ValidSetting(h, r.key, us[r.key])
  {
    var i := FirstInvalid(h, us, order);
    SettingsValid(h, us, order);
    if i < |order| {
      return Rejected(order[i]);
    }
    var text := UpdateUiTable(h, us, order, if existing.Some? then existing.value else "");
    return Saved(text);
  }

  /** Saving: what the editor's own reader reads from the saved text. */
  lemma SaveOverlaysIff(json: string -> Option<Value>, number: string -> bool, inherited: set<string>, h: Host,
                        us: Updates, order: seq<string>, text: string)
    requires LibraryOk(json, number) && h == TomlHost(json, number, inherited)
    requires ValidUpdates(h, us, order) && WellFormed(h, Split(text)) && !Shifted(h, us, order, Scan(h, text))
    ensures ReadUi(h, Update(h, us, order, text)) == ReadUi(h, text) + us <==> Expressible(h, us, ReadUi(h, text))
  {
    TomlHostOk(json, number, inherited);
    UpdateOverlaysIff(h, us, order, text);
  }
}
