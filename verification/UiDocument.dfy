/** Reading a document: sections with assignments, some with comments, read as the
    tables they spell out; and what a bracket in a comment does.
 */
module UiDocument {
  import opened TomlText
  import opened TomlGrammar
  import opened UiTable

  datatype Entry = Entry(key: string, value: Value, note: Option<string>)
  datatype Section = Section(name: string, entries: seq<Entry>)

  function EntryText(e: Entry): string {
    Serialize(e.value) + if e.note.None? then "" else " # " + e.note.value
  }

  function EntryLine(e: Entry): string {
    e.key + " = " + EntryText(e)
  }

  function EntryLines(es: seq<Entry>): seq<string> {
    if es == [] then [] else [EntryLine(es[0])] + EntryLines(es[1..])
  }

  function Lines(doc: seq<Section>): seq<string> {
    if doc == [] then [] else ["[" + doc[0].name + "]"] + EntryLines(doc[0].entries) + Lines(doc[1..])
  }

  // ---------------------------------------------------------------- what the document spells out

  function Values(es: seq<Entry>): Table {
    if es == [] then map[] else map[es[0].key := es[0].value] + Values(es[1..])
  }

  /** The table `[ui]`, all its sections together; later assignments win. */
  function UiValues(doc: seq<Section>): Table {
    if doc == [] then map[] else (if doc[0].name == "ui" then Values(doc[0].entries) else map[]) + UiValues(doc[1..])
  }

  /** The tables `[ui.<sub>]` that have an assignment. */
  function SubValues(doc: seq<Section>, sub: string): Table {
    if doc == [] then map[] else (if doc[0].name == "ui." + sub then Values(doc[0].entries) else map[]) + SubValues(doc[1..], sub)
  }

  // ---------------------------------------------------------------- documents that can be written

  predicate NameOk(name: string) {
    name != "" && ']' !in name && name[0] != '[' && !Space(name[0]) && !Space(name[|name| - 1]) && OneLine(name)
  }

  predicate EntryOk(number: string -> bool, e: Entry) {
    && IsKey(e.key) && Scalar(number, e.value) && !HasSeparator(e.value)
    && (e.note.Some? ==> !HasTerminator(e.note.value) && Balanced(EntryText(e)))
  }

  predicate SectionOk(number: string -> bool, s: Section) {
    NameOk(s.name) && forall e :: e in s.entries ==> EntryOk(number, e)
  }

  predicate DocOk(number: string -> bool, doc: seq<Section>) {
    forall s :: s in doc ==> SectionOk(number, s)
  }

  // ---------------------------------------------------------------- one entry

  lemma OneLineOfTerminators(t: string)
    requires !HasTerminator(t)
    ensures OneLine(t)
  {
    assert Terminator('\n');
  }

  lemma {:induction false} QuotedPieces(s: string) returns (us: seq<Unit>)
    ensures UnitsOk(us) && UnitsText(us) == EscapeAll(s)
  {
    us := [];
    if s != "" {
      var init, c := s[..|s| - 1], s[|s| - 1];
      var before := QuotedPieces(init);
      var last := EscapedPieces(c);
      us := before + last;
      UnitsAppend(before, last);
    }
  }

  lemma {:induction false} UnitsAppend(a: seq<Unit>, b: seq<Unit>)
    ensures UnitsText(a + b) == UnitsText(a) + UnitsText(b)
    decreases |a|
  {
    if a == [] {
      assert a + b == b;
    } else {
      assert (a + b)[1..] == a[1..] + b;
      UnitsAppend(a[1..], b);
    }
  }

  lemma EscapedPieces(c: char) returns (us: seq<Unit>)
    ensures UnitsOk(us) && UnitsText(us) == Escape(c)
  {
    var t := Escape(c);
    if c < ' ' && |t| == 6 {
      us := [Escaped('u'), Raw(t[2]), Raw(t[3]), Raw(t[4]), Raw(t[5])];
      HexIsPlain(c);
      assert t[4] in t && t[5] in t;
      UnitsOfSix(us, t);
    } else if |t| == 2 {
      us := [Escaped(t[1])];
      assert us[1..] == [];
      assert UnitsText(us) == UnitText(us[0]) + "";
    } else {
      us := [Raw(c)];
      assert us[1..] == [];
      assert UnitsText(us) == UnitText(us[0]) + "";
    }
  }

  lemma UnitsOfSix(us: seq<Unit>, t: string)
    requires |t| == 6 && t[0] == '\\' && t[1] == 'u'
    requires us == [Escaped('u'), Raw(t[2]), Raw(t[3]), Raw(t[4]), Raw(t[5])]
    ensures UnitsText(us) == t
  {
    var a, b, c, d := us[1..], us[2..], us[3..], us[4..];
    assert us[1..][1..] == b && b[1..] == c && c[1..] == d && d[1..] == [];
    assert UnitsText(d) == [t[5]] + "";
    assert UnitsText(c) == [t[4]] + UnitsText(d);
    assert UnitsText(b) == [t[3]] + UnitsText(c);
    assert UnitsText(a) == [t[2]] + UnitsText(b);
    assert UnitsText(us) == ['\\', 'u'] + UnitsText(a);
  }

  lemma {:induction false} PlainPieces(t: string) returns (ps: seq<Piece>)
    requires forall c :: c in t ==> NumberChar(c) || 'a' <= c <= 'z'
    ensures LineOk(ps) && Text(ps) == t
  {
    ps := [];
    if t != "" {
      assert t[0] in t && forall c :: c in t[1..] ==> c in t;
      var more := PlainPieces(t[1..]);
      ps := [Plain(t[0])] + more;
      assert ps[1..] == more;
    }
  }

  /** What is written for a scalar is made of closed pieces. */
  lemma SerializedPieces(number: string -> bool, v: Value) returns (ps: seq<Piece>)
    requires NumberTexts(number) && Scalar(number, v)
    ensures LineOk(ps) && Text(ps) == Serialize(v)
  {
    if v.Str? {
      var us := QuotedPieces(v.s);
      ps := [Basic(us)];
      assert ps[1..] == [];
      assert Text(ps) == PieceText(ps[0]) + "";
    } else {
      ps := PlainPieces(Serialize(v));
    }
  }

  lemma NoTerminator(a: string, b: string)
    requires !HasTerminator(a) && !HasTerminator(b)
    ensures !HasTerminator(a + b)
  {
  }

  lemma EntryShape(number: string -> bool, e: Entry)
    requires NumberTexts(number) && EntryOk(number, e)
    ensures StartsSolid(EntryText(e)) && !HasTerminator(EntryText(e)) && Balanced(EntryText(e))
    ensures EntryLine(e) == Assignment(e.key, EntryText(e)) && OneLine(EntryLine(e))
  {
    SerializedShape(number, e.value);
    var t := Serialize(e.value);
    if e.note.None? {
      assert t + "" == t;
    } else {
      NoTerminator(" # ", e.note.value);
      NoTerminator(t, " # " + e.note.value);
    }
    OneLineOfTerminators(EntryText(e));
    assert '\n' !in e.key && '\n' !in " = ";
  }

  lemma EntryValueReads(json: string -> Option<Value>, number: string -> bool, e: Entry)
    requires LibraryOk(json, number) && EntryOk(number, e)
    ensures ParseValue(json, EntryText(e)) == e.value
  {
    var t := Serialize(e.value);
    ValueRoundTrip(json, number, e.value);
    if e.note.None? {
      assert t + "" == t;
    } else {
      SerializedShape(number, e.value);
      OneLineOfTerminators(e.note.value);
      var ps := SerializedPieces(number, e.value);
      CommentedValueReads(json, ps, e.note.value);
      assert t + " # " + e.note.value == t + (" # " + e.note.value);
    }
  }

  // ---------------------------------------------------------------- the scan of a document

  function EntryChunk(section: string, e: Entry): Chunk {
    if InUi(section) then Pair(section, e.key, EntryText(e), [EntryLine(e)]) else Other(EntryLine(e))
  }

  function EntryChunks(section: string, es: seq<Entry>): seq<Chunk> {
    if es == [] then [] else [EntryChunk(section, es[0])] + EntryChunks(section, es[1..])
  }

  function DocChunks(doc: seq<Section>): seq<Chunk> {
    if doc == [] then [] else [Header("[" + doc[0].name + "]", doc[0].name)] + EntryChunks(doc[0].name, doc[0].entries) + DocChunks(doc[1..])
  }

  lemma EntryFits(json: string -> Option<Value>, number: string -> bool, h: Host, section: string, e: Entry)
    requires LibraryOk(json, number) && PatternsOk(h) && h.balanced == (t => Balanced(t)) && EntryOk(number, e)
    ensures Fits(h, section, EntryChunk(section, e)) && LinesOf(EntryChunk(section, e)) == [EntryLine(e)]
  {
    EntryShape(number, e);
    assert [EntryLine(e)][1..] == [];
    assert h.header(Assignment(e.key, EntryText(e))) == None;
  }

  lemma {:induction false} EntriesCut(json: string -> Option<Value>, number: string -> bool, h: Host, section: string, es: seq<Entry>, rest: seq<Chunk>)
    requires LibraryOk(json, number) && PatternsOk(h) && h.balanced == (t => Balanced(t)) && (forall e :: e in es ==> EntryOk(number, e))
    requires WellCut(h, section, rest)
    ensures WellCut(h, section, EntryChunks(section, es) + rest)
    ensures Flatten(EntryChunks(section, es) + rest) == EntryLines(es) + Flatten(rest)
    decreases |es|
  {
    if es == [] {
      assert EntryChunks(section, es) + rest == rest;
      assert EntryLines(es) + Flatten(rest) == Flatten(rest);
    } else {
      assert es[0] in es && forall e :: e in es[1..] ==> e in es;
      EntriesCut(json, number, h, section, es[1..], rest);
      EntryFits(json, number, h, section, es[0]);
      EntryCut(h, section, es[0], EntryChunks(section, es[1..]), rest, EntryLines(es[1..]));
    }
  }

  lemma EntryCut(h: Host, section: string, e: Entry, cs: seq<Chunk>, rest: seq<Chunk>, lines: seq<string>)
    requires Fits(h, section, EntryChunk(section, e)) && LinesOf(EntryChunk(section, e)) == [EntryLine(e)]
    requires WellCut(h, section, cs + rest) && Flatten(cs + rest) == lines + Flatten(rest)
    ensures var all := [EntryChunk(section, e)] + cs + rest;
      WellCut(h, section, all) && Flatten(all) == [EntryLine(e)] + lines + Flatten(rest)
  {
    Grouped(EntryChunk(section, e), cs, rest);
    assert Enter(section, EntryChunk(section, e)) == section;
  }

  lemma {:induction false} AnySectionCut(h: Host, a: string, b: string, cs: seq<Chunk>)
    requires WellCut(h, a, cs) && (cs == [] || cs[0].Header?)
    ensures WellCut(h, b, cs)
  {
  }

  lemma HeaderFits(h: Host, name: string)
    requires h.header == (l => HeaderOf(l)) && NameOk(name)
    ensures Fits(h, "", Header("[" + name + "]", name)) && OneLine("[" + name + "]")
  {
    NamedHeader(name);
  }

  lemma NamedHeader(name: string)
    requires NameOk(name)
    ensures HeaderOf("[" + name + "]") == Some(name) && OneLine("[" + name + "]")
  {
    BracketedReads(name);
    TrimSolid(name);
  }

  lemma {:induction false} DocCut(json: string -> Option<Value>, number: string -> bool, h: Host, doc: seq<Section>)
    requires LibraryOk(json, number) && PatternsOk(h) && h.balanced == (t => Balanced(t)) && h.header == (l => HeaderOf(l)) && DocOk(number, doc)
    ensures WellCut(h, "", DocChunks(doc)) && (DocChunks(doc) == [] || DocChunks(doc)[0].Header?)
    ensures Flatten(DocChunks(doc)) == Lines(doc)
    decreases |doc|
  {
    if doc != [] {
      var s, rest := doc[0], DocChunks(doc[1..]);
      assert s in doc && forall x :: x in doc[1..] ==> x in doc;
      DocCut(json, number, h, doc[1..]);
      AnySectionCut(h, "", s.name, rest);
      EntriesCut(json, number, h, s.name, s.entries, rest);
      HeaderFits(h, s.name);
      SectionCut(h, s, rest, Lines(doc[1..]));
      Grouped(Head(s), EntryChunks(s.name, s.entries), rest);
    }
  }

  function Head(s: Section): Chunk {
    Header("[" + s.name + "]", s.name)
  }

  lemma Grouped(c: Chunk, a: seq<Chunk>, b: seq<Chunk>)
    ensures [c] + a + b == [c] + (a + b) && ([c] + (a + b))[1..] == a + b
  {
  }

  lemma SectionCut(h: Host, s: Section, rest: seq<Chunk>, lines: seq<string>)
    requires var more := EntryChunks(s.name, s.entries) + rest;
      Fits(h, "", Head(s)) && WellCut(h, s.name, more) && Flatten(more) == EntryLines(s.entries) + Flatten(rest) && Flatten(rest) == lines
    ensures var cs := [Head(s)] + (EntryChunks(s.name, s.entries) + rest);
      WellCut(h, "", cs) && Flatten(cs) == ["[" + s.name + "]"] + EntryLines(s.entries) + lines
  {
    var more := EntryChunks(s.name, s.entries) + rest;
    assert ([Head(s)] + more)[1..] == more;
  }

  lemma {:induction false} DocOneLine(json: string -> Option<Value>, number: string -> bool, h: Host, doc: seq<Section>)
    requires LibraryOk(json, number) && h.header == (l => HeaderOf(l)) && DocOk(number, doc)
    ensures forall l :: l in Lines(doc) ==> OneLine(l)
    decreases |doc|
  {
    if doc != [] {
      var s := doc[0];
      assert s in doc && forall x :: x in doc[1..] ==> x in doc;
      DocOneLine(json, number, h, doc[1..]);
      HeaderFits(h, s.name);
      EntriesOneLine(number, s.entries);
    }
  }

  lemma {:induction false} EntriesOneLine(number: string -> bool, es: seq<Entry>)
    requires NumberTexts(number) && forall e :: e in es ==> EntryOk(number, e)
    ensures forall l :: l in EntryLines(es) ==> OneLine(l)
    decreases |es|
  {
    if es != [] {
      assert es[0] in es;
      EntryShape(number, es[0]);
      EntriesOneLine(number, es[1..]);
    }
  }

  // ---------------------------------------------------------------- what the chunks yield

  predicate AllRead(read: string -> Value, es: seq<Entry>) {
    forall e :: e in es ==> read(EntryText(e)) == e.value
  }

  predicate DocRead(read: string -> Value, doc: seq<Section>) {
    forall s :: s in doc ==> AllRead(read, s.entries)
  }

  lemma EveryEntryReads(json: string -> Option<Value>, number: string -> bool, read: string -> Value, doc: seq<Section>)
    requires LibraryOk(json, number) && DocOk(number, doc) && read == (t => ParseValue(json, t))
    ensures DocRead(read, doc)
  {
    forall s, e | s in doc && e in s.entries ensures read(EntryText(e)) == e.value {
      EntryValueReads(json, number, e);
    }
  }

  lemma ChunkUi(read: string -> Value, section: string, e: Entry)
    requires read(EntryText(e)) == e.value
    ensures UiPart(read, EntryChunk(section, e)) == if section == "ui" then map[e.key := e.value] else map[]
  {
  }

  lemma UiCons(read: string -> Value, c: Chunk, cs: seq<Chunk>)
    ensures Ui(read, [c] + cs) == UiPart(read, c) + Ui(read, cs)
  {
    assert ([c] + cs)[1..] == cs;
  }

  lemma {:induction false} EntriesUi(read: string -> Value, section: string, es: seq<Entry>)
    requires AllRead(read, es)
    ensures Ui(read, EntryChunks(section, es)) == if section == "ui" then Values(es) else map[]
    decreases |es|
  {
    if es != [] {
      assert es[0] in es && forall e :: e in es[1..] ==> e in es;
      EntriesUi(read, section, es[1..]);
      UiCons(read, EntryChunk(section, es[0]), EntryChunks(section, es[1..]));
      ChunkUi(read, section, es[0]);
    }
  }

  lemma {:induction false} DocUi(read: string -> Value, doc: seq<Section>)
    requires DocRead(read, doc)
    ensures Ui(read, DocChunks(doc)) == UiValues(doc)
    decreases |doc|
  {
    if doc != [] {
      var s, rest := doc[0], DocChunks(doc[1..]);
      var es := EntryChunks(s.name, s.entries);
      assert s in doc && forall x :: x in doc[1..] ==> x in doc;
      DocUi(read, doc[1..]);
      EntriesUi(read, s.name, s.entries);
      UiConcat(read, [Head(s)] + es, rest);
      UiCons(read, Head(s), es);
      EmptyMergeLeft(Ui(read, es));
    }
  }

  // ---------------------------------------------------------------- sub-tables

  /** The table named sub, which is there exactly when something is assigned in it. */
  ghost predicate Hold(t: Tables, sub: string, vs: Table) {
    if vs == map[] then sub !in t else sub in t && t[sub] == vs
  }

  function At(t: Tables, sub: string): Table {
    if sub in t then t[sub] else map[]
  }

  ghost predicate NoEmpty(t: Tables) {
    forall sub :: sub in t ==> t[sub] != map[]
  }

  lemma SubName(section: string, sub: string)
    ensures section == "ui." + sub <==> "ui." <= section && section[3..] == sub
  {
    if "ui." <= section {
      assert section == "ui." + section[3..];
    }
  }

  function SubPart(read: string -> Value, c: Chunk, sub: string): Table {
    if c.Pair? && c.section == "ui." + sub then map[c.key := read(c.value)] else map[]
  }

  /** What the chunks assign under one name. */
  function SubUi(read: string -> Value, cs: seq<Chunk>, sub: string): Table {
    if cs == [] then map[] else SubPart(read, cs[0], sub) + SubUi(read, cs[1..], sub)
  }

  lemma PutAt(read: string -> Value, t: Tables, c: Chunk, sub: string)
    ensures At(Put(read, t, c), sub) == At(t, sub) + SubPart(read, c, sub)
  {
    if c.Pair? {
      SubName(c.section, sub);
    }
  }

  lemma PutNoEmpty(read: string -> Value, t: Tables, c: Chunk)
    requires NoEmpty(t)
    ensures NoEmpty(Put(read, t, c))
  {
    if c.Pair? && "ui." <= c.section {
      var sub := c.section[3..];
      var table := (if sub in t then t[sub] else map[])[c.key := read(c.value)];
      assert c.key in table;
    }
  }

  lemma MergeAssoc(a: Table, b: Table, c: Table)
    ensures a + b + c == a + (b + c)
  {
  }

  lemma {:induction false} SubTablesAt(read: string -> Value, t: Tables, cs: seq<Chunk>, sub: string)
    requires NoEmpty(t)
    ensures NoEmpty(SubTables(read, t, cs)) && At(SubTables(read, t, cs), sub) == At(t, sub) + SubUi(read, cs, sub)
    decreases |cs|
  {
    if cs == [] {
      EmptyMerge(At(t, sub));
    } else {
      var t' := Put(read, t, cs[0]);
      PutNoEmpty(read, t, cs[0]);
      PutAt(read, t, cs[0], sub);
      SubTablesAt(read, t', cs[1..], sub);
      MergeAssoc(At(t, sub), SubPart(read, cs[0], sub), SubUi(read, cs[1..], sub));
    }
  }

  lemma SubCons(read: string -> Value, c: Chunk, cs: seq<Chunk>, sub: string)
    ensures SubUi(read, [c] + cs, sub) == SubPart(read, c, sub) + SubUi(read, cs, sub)
  {
    assert ([c] + cs)[1..] == cs;
  }

  lemma {:induction false} SubConcat(read: string -> Value, a: seq<Chunk>, b: seq<Chunk>, sub: string)
    ensures SubUi(read, a + b, sub) == SubUi(read, a, sub) + SubUi(read, b, sub)
    decreases |a|
  {
    if a == [] {
      assert a + b == b;
      EmptyMergeLeft(SubUi(read, b, sub));
    } else {
      assert a + b == [a[0]] + (a[1..] + b);
      SubCons(read, a[0], a[1..] + b, sub);
      SubConcat(read, a[1..], b, sub);
      MergeAssoc(SubPart(read, a[0], sub), SubUi(read, a[1..], sub), SubUi(read, b, sub));
    }
  }

  lemma ChunkSub(read: string -> Value, section: string, e: Entry, sub: string)
    requires read(EntryText(e)) == e.value
    ensures SubPart(read, EntryChunk(section, e), sub) == if section == "ui." + sub then map[e.key := e.value] else map[]
  {
    SubName(section, sub);
  }

  lemma {:induction false} EntriesSub(read: string -> Value, section: string, es: seq<Entry>, sub: string)
    requires AllRead(read, es)
    ensures SubUi(read, EntryChunks(section, es), sub) == if section == "ui." + sub then Values(es) else map[]
    decreases |es|
  {
    if es != [] {
      assert es[0] in es && forall e :: e in es[1..] ==> e in es;
      EntriesSub(read, section, es[1..], sub);
      SubCons(read, EntryChunk(section, es[0]), EntryChunks(section, es[1..]), sub);
      ChunkSub(read, section, es[0], sub);
    }
  }

  lemma {:induction false} DocSub(read: string -> Value, doc: seq<Section>, sub: string)
    requires DocRead(read, doc)
    ensures SubUi(read, DocChunks(doc), sub) == SubValues(doc, sub)
    decreases |doc|
  {
    if doc != [] {
      var s, rest := doc[0], DocChunks(doc[1..]);
      var es := EntryChunks(s.name, s.entries);
      assert s in doc && forall x :: x in doc[1..] ==> x in doc;
      DocSub(read, doc[1..], sub);
      EntriesSub(read, s.name, s.entries, sub);
      SubConcat(read, [Head(s)] + es, rest, sub);
      SubCons(read, Head(s), es, sub);
      EmptyMergeLeft(SubUi(read, es, sub));
    }
  }

  // ---------------------------------------------------------------- the main result

  /** Reading gives what the document says: the table `[ui]` holds the values
      assigned in its sections, comments aside, and each table `[ui.<sub>]` those
      assigned in its own. */
  lemma DocumentReads(json: string -> Option<Value>, number: string -> bool, inherited: set<string>, h: Host, doc: seq<Section>, sub: string)
    requires LibraryOk(json, number) && h == TomlHost(json, number, inherited) && DocOk(number, doc) && doc != []
    ensures ReadUi(h, Join(Lines(doc))) == UiValues(doc)
    ensures Hold(ReadTables(h, Join(Lines(doc))), sub, SubValues(doc, sub))
  {
    TomlHostOk(json, number, inherited);
    DocScan(json, number, h, doc);
    EveryEntryReads(json, number, h.read, doc);
    DocUi(h.read, doc);
    DocTables(h.read, doc, sub);
  }

  lemma DocTables(read: string -> Value, doc: seq<Section>, sub: string)
    requires DocRead(read, doc)
    ensures Hold(SubTables(read, map[], DocChunks(doc)), sub, SubValues(doc, sub))
  {
    DocSub(read, doc, sub);
    SubTablesAt(read, map[], DocChunks(doc), sub);
    EmptyMergeLeft(SubValues(doc, sub));
  }

  lemma DocScan(json: string -> Option<Value>, number: string -> bool, h: Host, doc: seq<Section>)
    requires LibraryOk(json, number) && PatternsOk(h) && h.balanced == (t => Balanced(t)) && h.header == (l => HeaderOf(l)) && DocOk(number, doc)
    requires doc != []
    ensures Scan(h, Join(Lines(doc))) == DocChunks(doc)
  {
    DocCut(json, number, h, doc);
    DocOneLine(json, number, h, doc);
    SplitJoin(Lines(doc));
    WellCutScans(h, "", DocChunks(doc));
  }

  // ---------------------------------------------------------------- a bracket in a comment

  const NOTED: seq<string> := ["[ui]", "a = true # [", "b = true # ]"]

  const NOTED_CHUNKS := [Header("[ui]", "ui"), Pair("ui", "a", "true # [\nb = true # ]", ["a = true # [", "b = true # ]"])]

  lemma NotedBalance()
    ensures !Balanced("true # [") && Balanced("true # [\nb = true # ]")
  {
    var open, mid, close := "true # ", "\nb = true # ", "]";
    assert "true # [" == open + "[" && "true # [\nb = true # ]" == "true # [" + mid + close;
    PlainlyWalked(OUTSIDE, open);
    WalkConcat(OUTSIDE, open, "[");
    WalkOne(OUTSIDE, '[');
    PlainlyWalked(Brackets(1, false, false), mid);
    WalkConcat(OUTSIDE, "true # [", mid);
    WalkConcat(OUTSIDE, "true # [" + mid, close);
    WalkOne(Brackets(1, false, false), ']');
  }

  lemma {:induction false} PlainlyWalked(b: Brackets, t: string)
    requires !b.inString && '"' !in t && '[' !in t && ']' !in t
    ensures Walk(b, t) == b
  {
    if t != "" {
      assert t[|t| - 1] in t && forall c :: c in t[..|t| - 1] ==> c in t;
      PlainlyWalked(b, t[..|t| - 1]);
    }
  }

  lemma NotedFits(h: Host, c: Chunk)
    requires PatternsOk(h) && h.balanced == (t => Balanced(t)) && c == NOTED_CHUNKS[1]
    ensures Fits(h, "ui", c)
  {
    NotedBalance();
    NotedReads(h);
    NotedText();
    TwoLinesFit(h, "a", "true # [", "a = true # [", "b = true # ]", "true # [\nb = true # ]");
  }

  lemma NotedText()
    ensures "true # [" + "\n" + "b = true # ]" == "true # [\nb = true # ]"
  {
  }

  lemma NotedReads(h: Host)
    requires PatternsOk(h)
    ensures h.header("a = true # [") == None && h.pair("a = true # [") == Some(("a", "true # ["))
  {
    assert Assignment("a", "true # [") == "a = true # [" && IsKey("a") && StartsSolid("true # [") && !HasTerminator("true # [");
  }

  lemma TwoLinesFit(h: Host, key: string, v: string, first: string, second: string, value: string)
    requires h.header(first) == None && h.pair(first) == Some((key, v)) && value == v + "\n" + second
    requires !h.balanced(v) && h.balanced(value)
    ensures Fits(h, "ui", Pair("ui", key, value, [first, second]))
  {
    assert [first, second][1..] == [second] && [second][1..] == [];
    assert Grown(v, [second]) == Grown(value, []);
    assert Closes(h, value, []) && Closes(h, v, [second]);
  }

  lemma NotedLines()
    ensures Split(Join(NOTED)) == NOTED && Flatten(NOTED_CHUNKS) == NOTED
  {
    assert OneLine("[ui]") && OneLine("a = true # [") && OneLine("b = true # ]");
    SplitJoin(NOTED);
    var a, b := NOTED_CHUNKS[0], NOTED_CHUNKS[1];
    assert [a, b][1..] == [b] && [b][1..] == [];
    assert Flatten([]) == [] && b.lines + [] == b.lines;
    assert Flatten([b]) == LinesOf(b) + Flatten([]) == b.lines;
    assert Flatten([a, b]) == LinesOf(a) + Flatten([b]) == ["[ui]"] + b.lines;
  }

  /** Balance is tested before comments are stripped, so a bracket in a comment
      makes the value take the next lines: the key b of this text is not read. */
  lemma CommentBracketSwallows(json: string -> Option<Value>, number: string -> bool, inherited: set<string>, h: Host)
    requires LibraryOk(json, number) && h == TomlHost(json, number, inherited)
    ensures "b" !in ReadUi(h, Join(NOTED))
  {
    TomlHostOk(json, number, inherited);
    NotedLines();
    var a, b := NOTED_CHUNKS[0], NOTED_CHUNKS[1];
    NotedFits(h, b);
    assert [a, b][1..] == [b] && [b][1..] == [];
    assert WellCut(h, "ui", []) && WellCut(h, "ui", [b]) && WellCut(h, "", NOTED_CHUNKS);
    WellCutScans(h, "", NOTED_CHUNKS);
    NotedUi(h.read);
  }

  lemma NotedUi(read: string -> Value)
    ensures "b" !in Ui(read, NOTED_CHUNKS)
  {
    var a, b := NOTED_CHUNKS[0], NOTED_CHUNKS[1];
    assert [a, b][1..] == [b] && [b][1..] == [];
    assert Ui(read, [b]) == UiPart(read, b) + map[] && UiPart(read, b).Keys == {"a"};
    assert "a" != "b";
  }

  lemma SerializedOutside(number: string -> bool, v: Value)
    requires NumberTexts(number) && Scalar(number, v)
    ensures Walk(OUTSIDE, Serialize(v)) == OUTSIDE
  {
    if v.Str? {
      EscapeAllWalk(v.s);
      WalkConcat(OUTSIDE, "\"", EscapeAll(v.s));
      WalkConcat(OUTSIDE, "\"" + EscapeAll(v.s), "\"");
      assert "\""[..0] == "";
    } else {
      PlainWalk(OUTSIDE, Serialize(v));
    }
  }

  lemma CommentBalance(number: string -> bool, v: Value, note: string)
    requires NumberTexts(number) && Scalar(number, v)
    ensures Balanced(Serialize(v) + " # " + note) <==> Balanced(note)
  {
    var t := Serialize(v);
    SerializedOutside(number, v);
    PlainlyWalked(OUTSIDE, " # ");
    WalkConcat(OUTSIDE, t, " # ");
    WalkConcat(OUTSIDE, t + " # ", note);
  }

  /** Exactly when a comment does this: the assignment of a scalar with a comment, and
      lines behind it, takes its own line alone if and only if the comment is
      balanced, its brackets and its double quotes counted as those of a value. */
  lemma CommentSwallowsIff(h: Host, number: string -> bool, section: string, e: Entry, rest: seq<string>)
    requires PatternsOk(h) && h.balanced == (t => Balanced(t)) && NumberTexts(number) && InUi(section) && rest != []
    requires IsKey(e.key) && Scalar(number, e.value) && !HasSeparator(e.value) && e.note.Some? && !HasTerminator(e.note.value)
    ensures var c := ChunkAt(h, section, [EntryLine(e)] + rest);
      c.Pair? && (c.lines == [EntryLine(e)] <==> Balanced(e.note.value))
  {
    var line, t := EntryLine(e), EntryText(e);
    SerializedShape(number, e.value);
    NoTerminator(" # ", e.note.value);
    NoTerminator(Serialize(e.value), " # " + e.note.value);
    CommentBalance(number, e.value, e.note.value);
    assert Serialize(e.value) + " # " + e.note.value == t;
    assert line == Assignment(e.key, t) && StartsSolid(t);
    var lines := [line] + rest;
    assert lines[1..] == rest;
    TakesOneLine(h, section, lines, e.key, t);
    assert lines[..1] == [line];
  }

  lemma TakesOneLine(h: Host, section: string, lines: seq<string>, key: string, value: string)
    requires |lines| > 1 && InUi(section) && h.header(lines[0]) == None && h.pair(lines[0]) == Some((key, value))
    ensures var c := ChunkAt(h, section, lines); c.Pair? && (c.lines == lines[..1] <==> h.balanced(value))
  {
    var n := 1 + Extent(h, value, lines[1..]);
    assert n > 1 ==> |lines[..n]| > 1;
  }

  // ---------------------------------------------------------------- where an edit puts new assignments

  /** Position k holds the first `[ui]` header, and its section ends at e: at the next
      header or at the end of the file. */
  predicate SectionAt(cs: seq<Chunk>, k: nat, e: nat) {
    && k < e <= |cs| && IsUiHeader(cs[k]) && (forall i :: 0 <= i < k ==> !IsUiHeader(cs[i]))
    && (forall i :: k < i < e ==> !cs[i].Header?) && (e < |cs| ==> cs[e].Header?)
  }

  lemma {:induction false} InsideUi(cs: seq<Chunk>)
    ensures var e := UiEnd("ui", cs); (forall i :: 0 <= i < e ==> !cs[i].Header?) && (e < |cs| ==> cs[e].Header?)
  {
    if cs != [] && !cs[0].Header? {
      InsideUi(cs[1..]);
      assert forall i :: 1 <= i < |cs| ==> cs[i] == cs[1..][i - 1];
    }
  }

  /** New assignments go to the end of the first `[ui]` section. */
  lemma {:induction false} EndOfFirstSection(section: string, cs: seq<Chunk>) returns (k: nat)
    requires section != "ui" && HasUi(cs)
    ensures SectionAt(cs, k, UiEnd(section, cs))
    decreases |cs|
  {
    assert forall i :: 1 <= i < |cs| ==> cs[i] == cs[1..][i - 1];
    if IsUiHeader(cs[0]) {
      InsideUi(cs[1..]);
      k := 0;
    } else {
      var c :| c in cs && IsUiHeader(c);
      assert c in cs[1..];
      var j := EndOfFirstSection(Enter(section, cs[0]), cs[1..]);
      k := j + 1;
    }
  }

  /** Without a `[ui]` header no assignment is in the `[ui]` table. */
  lemma {:induction false} NoHeaderNoPair(h: Host, section: string, lines: seq<string>)
    requires section != "ui" && !HasUi(Chunks(h, section, lines))
    ensures forall c :: c in Chunks(h, section, lines) ==> !IsUiPair(c)
    decreases |lines|
  {
    if lines != [] {
      var cs := Chunks(h, section, lines);
      var c := ChunkAt(h, section, lines);
      assert c in cs && cs == [c] + cs[1..];
      assert forall x :: x in cs[1..] ==> x in cs;
      NoHeaderNoPair(h, Enter(section, c), lines[|LinesOf(c)|..]);
    }
  }

  lemma {:induction false} NoPairNoEntry(read: string -> Value, i: nat, cs: seq<Chunk>)
    requires forall c :: c in cs ==> !IsUiPair(c)
    ensures EntriesAt(read, i, cs) == []
    decreases |cs|
  {
    if cs != [] {
      assert cs[0] in cs;
      assert OwnEntry(read, i, cs[0]) == [];
      var j := i + |LinesOf(cs[0])|;
      NoPairNoEntry(read, j, cs[1..]);
      assert EntriesAt(read, i, cs) == OwnEntry(read, i, cs[0]) + EntriesAt(read, j, cs[1..]);
    }
  }

  lemma {:induction false} NothingRewritten(h: Host, us: Updates, lines: seq<string>, i: nat)
    requires i <= |lines|
    ensures OutFrom(h, us, lines, [], i) == lines[i..]
    decreases |lines| - i
  {
    if i < |lines| {
      NothingRewritten(h, us, lines, i + 1);
      assert lines[i..] == [lines[i]] + lines[i + 1..];
    }
  }

  lemma {:induction false} AllPending(cs: seq<Chunk>, order: seq<string>)
    requires forall c :: c in cs ==> !IsUiPair(c)
    ensures Pending(cs, order) == order
  {
    if order != [] {
      AllPending(cs, order[1..]);
      assert order == [order[0]] + order[1..];
    }
  }

  /** The lines of the assignments, in the given order. */
  function Assignments(us: Updates, order: seq<string>): seq<string>
    requires forall k :: k in order ==> k in us
  {
    seq(|order|, i requires 0 <= i < |order| => order[i] + " = " + Serialize(us[order[i]]))
  }

  lemma {:induction false} BlockIsAssignments(us: Updates, order: seq<string>)
    requires forall k :: k in order ==> k in us
    ensures BlockLines(us, order) == Assignments(us, order)
  {
    if order != [] {
      BlockIsAssignments(us, order[1..]);
      assert Assignments(us, order) == [order[0] + " = " + Serialize(us[order[0]])] + Assignments(us, order[1..]);
    }
  }

  /** A file without a `[ui]` section keeps its lines as they are, and the table goes
      behind them, after a blank line unless there is one already. */
  lemma NewTableGoesLast(h: Host, us: Updates, order: seq<string>, lines: seq<string>)
    requires !HasUi(Chunks(h, "", lines)) && order != [] && forall k :: k in order ==> k in us
    ensures UpdateLines(h, us, order, lines) ==
      lines + (if lines == [] || lines[|lines| - 1] == "" then [] else [""]) + ["[ui]"] + Assignments(us, order)
  {
    var cs := Chunks(h, "", lines);
    NoHeaderNoPair(h, "", lines);
    NoPairNoEntry(h.read, 0, cs);
    NothingRewritten(h, us, lines, 0);
    AllPending(cs, order);
    BlockIsAssignments(us, order);
    assert lines[0..] == lines;
    NewTableLines(h, us, order, lines, cs, lines);
    HeaderIs(lines);
    var top, bs := (if lines == [] || lines[|lines| - 1] == "" then [] else [""]), Assignments(us, order);
    Regrouped(lines, top, ["[ui]"], bs);
  }

  lemma Regrouped(a: seq<string>, b: seq<string>, c: seq<string>, d: seq<string>)
    ensures a + (b + c) + d == a + b + c + d
  {
  }

  lemma NewTableLines(h: Host, us: Updates, order: seq<string>, lines: seq<string>, cs: seq<Chunk>, out: seq<string>)
    requires forall k :: k in order ==> k in us
    requires cs == Chunks(h, "", lines) && out == OutFrom(h, us, lines, EntriesAt(h.read, 0, cs), 0)
    requires !HasUi(cs) && Pending(cs, order) == order != []
    ensures UpdateLines(h, us, order, lines) == out + Flatten(NewHeader(out)) + BlockLines(us, order)
  {
  }

  lemma HeaderIs(lines: seq<string>)
    ensures Flatten(NewHeader(lines)) == (if lines == [] || lines[|lines| - 1] == "" then [] else [""]) + ["[ui]"]
  {
    var a, b := Other(""), Header("[ui]", "ui");
    assert [b][1..] == [] && Flatten([b]) == ["[ui]"];
    assert [a, b][1..] == [b] && [a] + [b] == [a, b] && [] + [b] == [b];
    assert Flatten([a, b]) == [""] + Flatten([b]);
  }
}
