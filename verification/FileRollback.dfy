/** File rollback: write and edit tools capture every file before and after, a
    journal records the captures, and a rollback plans and undoes the mutations
    bound to the active branch.

    The hash is a parameter assumed to be free of collisions.  What the tool
    wrappers, the binder, other programs and the rollback itself do are the
    `Event`s of a run; `World.history` is an observer's note of the files as
    they were before each journalled mutation.
 */
module FileRollback {

  datatype Option<T> = None | Some(value: T)

  newtype byte = x: int | 0 <= x < 256
  type Bytes = seq<byte>
  type Hash = string
  type Path = string
  type Files = map<Path, Bytes>

  const MAX_BLOB_SIZE: nat := 10 * 1024 * 1024

  datatype Mutation = Mutation(sequence: nat, toolCallId: string, path: Path, before: string, after: string, treeEntryId: Option<string>)

  datatype TxState = Prepared | Committed | TxFailed
  datatype Line = MutationLine(m: Mutation) | TxLine(state: TxState, planned: seq<Path>)

  datatype World = World(
    files: Files,
    blobs: map<Hash, Bytes>,
    journal: seq<Line>,
    sequence: nat,
    slot: Option<(Path, Bytes)>,
    history: seq<Files>)

  ghost predicate CollisionFree(sha: Bytes -> Hash) {
    && (forall a: Bytes :: sha(a) != "")
    && (forall a: Bytes, b: Bytes :: sha(a) == sha(b) ==> a == b)
  }

  // ---------------------------------------------------------------- references

  function BlobRef(h: Hash): string {
    "blob:" + h
  }

  function ParseBlobRef(r: string): Option<Hash> {
    if r == "absent" then None
    else if "blob:" <= r then Some(r[5..])
    else None
  }

  /** A reference survives being written and read, and is never mistaken for "absent". */
  lemma BlobRefRoundTrip(h: Hash)
    ensures ParseBlobRef(BlobRef(h)) == Some(h) && BlobRef(h) != "absent" && ParseBlobRef("absent") == None
  {
    assert BlobRef(h)[0] == 'b';
    assert BlobRef(h)[5..] == h;
  }

  /** How the journal names the content of a path. */
  function RefOf(sha: Bytes -> Hash, files: Files, p: Path): string {
    if p in files then BlobRef(sha(files[p])) else "absent"
  }

  lemma RefOfDecides(sha: Bytes -> Hash, f: Files, g: Files, p: Path)
    requires CollisionFree(sha) && RefOf(sha, f, p) == RefOf(sha, g, p)
    ensures (p in f <==> p in g) && (p in f ==> f[p] == g[p])
  {
    if p in f {
      BlobRefRoundTrip(sha(f[p]));
    }
    if p in g {
      BlobRefRoundTrip(sha(g[p]));
    }
  }

  // ---------------------------------------------------------------- capture

  function Mutations(lines: seq<Line>): seq<Mutation> {
    if lines == [] then []
    else
      var rest := Mutations(lines[..|lines| - 1]);
      match lines[|lines| - 1]
      case MutationLine(m) => rest + [m]
      case TxLine(_, _) => rest
  }

  function WriteBlob(sha: Bytes -> Hash, blobs: map<Hash, Bytes>, data: Bytes): map<Hash, Bytes> {
    if sha(data) in blobs then blobs else blobs[sha(data) := data]
  }

  predicate TooBig(data: Option<Bytes>) {
    data.Some? && |data.value| > MAX_BLOB_SIZE
  }

  function StoreSide(sha: Bytes -> Hash, blobs: map<Hash, Bytes>, data: Option<Bytes>): map<Hash, Bytes> {
    if data.None? then blobs else WriteBlob(sha, blobs, data.value)
  }

  function SideRef(sha: Bytes -> Hash, data: Option<Bytes>): string {
    if data.None? then "absent" else BlobRef(sha(data.value))
  }

  /** Record one mutation.  A symlink or an oversized blob makes the capture
      fail, and the wrappers swallow that failure. */
  function Capture(sha: Bytes -> Hash, w: World, toolCallId: string, p: Path, before: Option<Bytes>, after: Option<Bytes>,
                   symlink: bool, was: Files): World
  {
    if symlink || TooBig(before) then w
    else CaptureAfter(sha, w.(blobs := StoreSide(sha, w.blobs, before)), toolCallId, p, SideRef(sha, before), after, was)
  }

  /** The second half of a capture; a mutation that changes nothing is not recorded. */
  function CaptureAfter(sha: Bytes -> Hash, w: World, toolCallId: string, p: Path, before: string, after: Option<Bytes>, was: Files): World {
    if TooBig(after) then w
    else
      var stored := w.(blobs := StoreSide(sha, w.blobs, after));
      if before == SideRef(sha, after) then stored
      else Recorded(stored, Mutation(w.sequence + 1, toolCallId, p, before, SideRef(sha, after), None), was)
  }

  function Recorded(w: World, m: Mutation, was: Files): World {
    w.(sequence := m.sequence, journal := w.journal + [MutationLine(m)], history := w.history + [was])
  }

  function Lookup(files: Files, p: Path): Option<Bytes> {
    if p in files then Some(files[p]) else None
  }

  function DoWrite(sha: Bytes -> Hash, w: World, toolCallId: string, p: Path, content: Bytes, symlink: bool): World {
    Capture(sha, w.(files := w.files[p := content]), toolCallId, p, Lookup(w.files, p), Some(content), symlink, w.files)
  }

  /** The edit tool reads first; the one shared slot remembers what it read. */
  function DoEditRead(w: World, p: Path): World {
    if p in w.files then w.(slot := Some((p, w.files[p]))) else w
  }

  function SlotFor(w: World, p: Path): Option<Bytes> {
    if w.slot.Some? && w.slot.value.0 == p then Some(w.slot.value.1) else None
  }

  function DoEditWrite(sha: Bytes -> Hash, w: World, toolCallId: string, p: Path, content: Bytes, symlink: bool): World {
    Capture(sha, w.(files := w.files[p := content]), toolCallId, p, SlotFor(w, p), Some(content), symlink, w.files).(slot := None)
  }

  // ---------------------------------------------------------------- binding to the session tree

  function BindOne(m: Mutation, results: map<string, string>): Mutation {
    if m.treeEntryId.None? && m.toolCallId in results && results[m.toolCallId] != ""
    then m.(treeEntryId := Some(results[m.toolCallId]))
    else m
  }

  function BindAll(ms: seq<Mutation>, results: map<string, string>): seq<Mutation> {
    if ms == [] then [] else BindAll(ms[..|ms| - 1], results) + [BindOne(ms[|ms| - 1], results)]
  }

  function Transactions(lines: seq<Line>): seq<Line> {
    if lines == [] then []
    else
      var rest := Transactions(lines[..|lines| - 1]);
      if lines[|lines| - 1].TxLine? then rest + [lines[|lines| - 1]] else rest
  }

  function AsLines(ms: seq<Mutation>): seq<Line> {
    if ms == [] then [] else AsLines(ms[..|ms| - 1]) + [MutationLine(ms[|ms| - 1])]
  }

  function Key(l: Line): nat {
    match l case MutationLine(m) => m.sequence case TxLine(_, _) => 0
  }

  /** Put a line after every line with a smaller or equal key. */
  function Insert(lines: seq<Line>, l: Line): seq<Line> {
    if lines != [] && Key(lines[|lines| - 1]) > Key(l)
    then Insert(lines[..|lines| - 1], l) + [lines[|lines| - 1]]
    else lines + [l]
  }

  function StableSort(lines: seq<Line>): seq<Line> {
    if lines == [] then [] else Insert(StableSort(lines[..|lines| - 1]), lines[|lines| - 1])
  }

  function DoBind(w: World, results: map<string, string>): World {
    var ms := Mutations(w.journal);
    var bound := BindAll(ms, results);
    if bound == ms then w
    else w.(journal := StableSort(AsLines(bound) + Transactions(w.journal)))
  }

  // ---------------------------------------------------------------- planning

  function Select(ms: seq<Mutation>, target: string, branch: set<string>): seq<Mutation> {
    if ms == [] then []
    else
      var rest := Select(ms[..|ms| - 1], target, branch);
      var m := ms[|ms| - 1];
      if m.treeEntryId.Some? && m.treeEntryId.value != "" && m.treeEntryId.value in branch && m.treeEntryId.value != target
      then rest + [m] else rest
  }

  /** The paths of a list of mutations, in the order in which they first appear. */
  function PathsOf(ms: seq<Mutation>): seq<Path> {
    if ms == [] then []
    else
      var rest := PathsOf(ms[..|ms| - 1]);
      if ms[|ms| - 1].path in rest then rest else rest + [ms[|ms| - 1].path]
  }

  function FirstOf(ms: seq<Mutation>): map<Path, Mutation> {
    if ms == [] then map[]
    else
      var rest := FirstOf(ms[..|ms| - 1]);
      if ms[|ms| - 1].path in rest then rest else rest[ms[|ms| - 1].path := ms[|ms| - 1]]
  }

  function LastOf(ms: seq<Mutation>): map<Path, Mutation> {
    if ms == [] then map[] else LastOf(ms[..|ms| - 1])[ms[|ms| - 1].path := ms[|ms| - 1]]
  }

  datatype Action = Restore | Delete | Noop
  datatype PlanEntry = PlanEntry(path: Path, action: Action, current: Option<Hash>, target: Option<Hash>)
  datatype Plan = Plan(eligible: bool, paths: seq<PlanEntry>, conflicts: seq<Path>)

  function Digest(sha: Bytes -> Hash, files: Files, p: Path): Option<Hash> {
    if p in files then Some(sha(files[p])) else None
  }

  predicate Truthy(h: Option<Hash>) {
    h.Some? && h.value != ""
  }

  /** The file is not in the state the last mutation left it in. */
  predicate InConflict(sha: Bytes -> Hash, files: Files, p: Path, expected: string) {
    if expected == "absent" then p in files
    else Truthy(ParseBlobRef(expected)) && Digest(sha, files, p) != ParseBlobRef(expected)
  }

  /** A path expected to be absent gets a no-op entry before its action is decided. */
  function EntriesFor(sha: Bytes -> Hash, files: Files, p: Path, goal: string, expected: string): seq<PlanEntry> {
    var current := Digest(sha, files, p);
    (if expected == "absent" then [PlanEntry(p, Noop, None, None)] else []) +
    if goal == "absent" then [PlanEntry(p, if p in files then Delete else Noop, current, None)]
    else if !Truthy(ParseBlobRef(goal)) then []
    else if current == ParseBlobRef(goal) then [PlanEntry(p, Noop, current, current)]
    else [PlanEntry(p, Restore, current, ParseBlobRef(goal))]
  }

  function Conflicts(sha: Bytes -> Hash, files: Files, sel: seq<Mutation>, ps: seq<Path>): seq<Path>
    requires forall p :: p in ps ==> p in LastOf(sel)
  {
    if ps == [] then []
    else
      var p := ps[|ps| - 1];
      Conflicts(sha, files, sel, ps[..|ps| - 1]) + if InConflict(sha, files, p, LastOf(sel)[p].after) then [p] else []
  }

  function Entries(sha: Bytes -> Hash, files: Files, sel: seq<Mutation>, ps: seq<Path>): seq<PlanEntry>
    requires forall p :: p in ps ==> p in LastOf(sel) && p in FirstOf(sel)
  {
    if ps == [] then []
    else
      var p := ps[|ps| - 1];
      Entries(sha, files, sel, ps[..|ps| - 1]) +
      if InConflict(sha, files, p, LastOf(sel)[p].after) then []
      else EntriesFor(sha, files, p, FirstOf(sel)[p].before, LastOf(sel)[p].after)
  }

  lemma {:induction false} PathsAreKeys(ms: seq<Mutation>)
    ensures forall p :: p in PathsOf(ms) <==> p in FirstOf(ms)
    ensures forall p :: p in PathsOf(ms) <==> p in LastOf(ms)
    ensures forall i, j :: 0 <= i < j < |PathsOf(ms)| ==> PathsOf(ms)[i] != PathsOf(ms)[j]
  {
    if ms != [] {
      PathsAreKeys(ms[..|ms| - 1]);
    }
  }

  function ComputePlan(sha: Bytes -> Hash, w: World, target: string, branch: set<string>): Plan {
    if target !in branch then Plan(false, [], [target])
    else
      var sel := Select(Mutations(w.journal), target, branch);
      PathsAreKeys(sel);
      var conflicts := Conflicts(sha, w.files, sel, PathsOf(sel));
      var paths := Entries(sha, w.files, sel, PathsOf(sel));
      Plan(conflicts == [] && exists e :: e in paths && e.action != Noop, paths, conflicts)
  }

  // ---------------------------------------------------------------- execution

  /** One plan entry; None when the blob to restore is missing.  A failing
      unlink is swallowed, so an undeletable file simply stays. */
  function Perform(files: Files, blobs: map<Hash, Bytes>, undeletable: set<Path>, e: PlanEntry): Option<Files> {
    match e.action
    case Noop => Some(files)
    case Delete => Some(if e.path in undeletable then files else files - {e.path})
    case Restore =>
      if !Truthy(e.target) then Some(files)
      else if e.target.value !in blobs then None
      else Some(files[e.path := blobs[e.target.value]])
  }

  /** Entries in order; the flag says whether all of them went through. */
  function PerformAll(files: Files, blobs: map<Hash, Bytes>, undeletable: set<Path>, es: seq<PlanEntry>): (Files, bool) {
    if es == [] then (files, true)
    else
      var done := PerformAll(files, blobs, undeletable, es[..|es| - 1]);
      if !done.1 then done
      else match Perform(done.0, blobs, undeletable, es[|es| - 1])
        case None => (done.0, false)
        case Some(next) => (next, true)
  }

  function Planned(es: seq<PlanEntry>): seq<Path> {
    if es == [] then []
    else
      var rest := Planned(es[..|es| - 1]);
      if es[|es| - 1].action == Noop then rest else rest + [es[|es| - 1].path]
  }

  function Execute(w: World, plan: Plan, undeletable: set<Path>): World {
    var done := PerformAll(w.files, w.blobs, undeletable, plan.paths);
    w.(files := done.0,
       journal := w.journal + [TxLine(Prepared, Planned(plan.paths)), TxLine(if done.1 then Committed else TxFailed, Planned(plan.paths))])
  }

  function DoRollback(sha: Bytes -> Hash, w: World, target: string, branch: set<string>, undeletable: set<Path>): World {
    var plan := ComputePlan(sha, w, target, branch);
    if plan.eligible then Execute(w, plan, undeletable) else w
  }

  // ---------------------------------------------------------------- runs

  datatype Event =
    | Write(toolCallId: string, path: Path, content: Bytes, symlink: bool)
    | EditRead(path: Path)
    | EditWrite(toolCallId: string, path: Path, content: Bytes, symlink: bool)
    | External(path: Path, now: Option<Bytes>)
    | Bind(results: map<string, string>)
    | Resume
    | Rollback(target: string, branch: set<string>, undeletable: set<Path>)

  function MaxSequence(ms: seq<Mutation>): nat {
    if ms == [] then 0
    else
      var rest := MaxSequence(ms[..|ms| - 1]);
      if rest < ms[|ms| - 1].sequence then ms[|ms| - 1].sequence else rest
  }

  function Step(sha: Bytes -> Hash, w: World, e: Event): World {
    match e
    case Write(toolCallId, p, content, symlink) => DoWrite(sha, w, toolCallId, p, content, symlink)
    case EditRead(p) => DoEditRead(w, p)
    case EditWrite(toolCallId, p, content, symlink) => DoEditWrite(sha, w, toolCallId, p, content, symlink)
    case External(p, now) => w.(files := if now.None? then w.files - {p} else w.files[p := now.value])
    case Bind(results) => DoBind(w, results)
    case Resume => w.(sequence := MaxSequence(Mutations(w.journal)), slot := None)
    case Rollback(target, branch, undeletable) => DoRollback(sha, w, target, branch, undeletable)
  }

  function Run(sha: Bytes -> Hash, w: World, es: seq<Event>): World
    decreases |es|
  {
    if es == [] then w else Run(sha, Step(sha, w, es[0]), es[1..])
  }

  /** A fresh session over any file system. */
  function Fresh(files: Files): World {
    World(files, map[], [], 0, None, [])
  }

  /** An edit is captured right when the slot holds what the file holds. */
  predicate InStep(w: World, e: Event) {
    e.EditWrite? ==> SlotFor(w, e.path) == Lookup(w.files, e.path)
  }

  predicate InStepRun(sha: Bytes -> Hash, w: World, es: seq<Event>)
    decreases |es|
  {
    es == [] || (InStep(w, es[0]) && InStepRun(sha, Step(sha, w, es[0]), es[1..]))
  }

  /** The edit under way, if any: the last read that found its file, as long as no
      edit was written, no session resumed and the file not touched since. */
  function Open(sha: Bytes -> Hash, w: World, open: Option<Path>, e: Event): Option<Path> {
    match e
    case EditRead(p) => if p in w.files then Some(p) else open
    case EditWrite(_, _, _, _) => None
    case Resume => None
    case Write(_, p, _, _) => if open == Some(p) then None else open
    case External(p, _) => if open == Some(p) then None else open
    case Bind(_) => open
    case Rollback(target, branch, _) =>
      if open.Some? && open.value in Planned(ComputePlan(sha, w, target, branch).paths) then None else open
  }

  /** Edits do not interleave: every edit is written while it is the one under way. */
  predicate Apart(sha: Bytes -> Hash, w: World, es: seq<Event>, open: Option<Path>)
    decreases |es|
  {
    es == [] || ((es[0].EditWrite? ==> open == Some(es[0].path)) && Apart(sha, Step(sha, w, es[0]), es[1..], Open(sha, w, open, es[0])))
  }

  // ---------------------------------------------------------------- invariants

  ghost predicate BlobsOk(sha: Bytes -> Hash, blobs: map<Hash, Bytes>) {
    forall h :: h in blobs ==> sha(blobs[h]) == h
  }

  predicate Names(r: string, h: Hash) {
    h != "" && r == BlobRef(h)
  }

  predicate RefOk(blobs: map<Hash, Bytes>, r: string) {
    r == "absent" || exists h :: h in blobs && Names(r, h)
  }

  /** What a sound reference says, as the program reads it. */
  lemma RefOkReads(blobs: map<Hash, Bytes>, r: string)
    requires RefOk(blobs, r)
    ensures r == "absent" || (Truthy(ParseBlobRef(r)) && ParseBlobRef(r).value in blobs && r == BlobRef(ParseBlobRef(r).value))
  {
    if r != "absent" {
      var h :| h in blobs && Names(r, h);
      BlobRefRoundTrip(h);
    }
  }

  ghost predicate RefsOk(blobs: map<Hash, Bytes>, ms: seq<Mutation>) {
    forall m :: m in ms ==> RefOk(blobs, m.before) && RefOk(blobs, m.after)
  }

  ghost predicate SequencesOk(ms: seq<Mutation>, sequence: nat) {
    && (forall i :: 0 <= i < |ms| ==> 0 < ms[i].sequence <= sequence)
    && (forall i, j :: 0 <= i < j < |ms| ==> ms[i].sequence < ms[j].sequence)
    && (ms == [] ==> sequence == 0) && (ms != [] ==> ms[|ms| - 1].sequence == sequence)
  }

  /** Every journalled mutation names the content its path really had. */
  ghost predicate Faithful(sha: Bytes -> Hash, ms: seq<Mutation>, history: seq<Files>) {
    && |history| == |ms|
    && forall i :: 0 <= i < |ms| ==> ms[i].before == RefOf(sha, history[i], ms[i].path)
  }

  /** The blob store is content-addressed and holds every blob the journal names. */
  ghost predicate StoreOk(sha: Bytes -> Hash, w: World) {
    BlobsOk(sha, w.blobs) && RefsOk(w.blobs, Mutations(w.journal))
  }

  ghost predicate WorldOk(sha: Bytes -> Hash, w: World) {
    StoreOk(sha, w) && SequencesOk(Mutations(w.journal), w.sequence) && Faithful(sha, Mutations(w.journal), w.history)
  }

  // ---------------------------------------------------------------- the binder keeps the mutations in order

  lemma {:induction false} MutationsAppend(a: seq<Line>, b: seq<Line>)
    ensures Mutations(a + b) == Mutations(a) + Mutations(b)
  {
    if b == [] {
      assert a + b == a;
    } else {
      assert (a + b)[..|a + b| - 1] == a + b[..|b| - 1];
      MutationsAppend(a, b[..|b| - 1]);
    }
  }

  lemma {:induction false} MutationsOfTransactions(lines: seq<Line>)
    ensures Mutations(Transactions(lines)) == []
    ensures forall i :: 0 <= i < |Transactions(lines)| ==> Transactions(lines)[i].TxLine?
  {
    if lines != [] {
      var rest := Transactions(lines[..|lines| - 1]);
      MutationsOfTransactions(lines[..|lines| - 1]);
      if lines[|lines| - 1].TxLine? {
        assert (rest + [lines[|lines| - 1]])[..|rest|] == rest;
      }
    }
  }

  lemma {:induction false} MutationsOfAsLines(ms: seq<Mutation>)
    ensures Mutations(AsLines(ms)) == ms
    ensures |AsLines(ms)| == |ms| && forall i :: 0 <= i < |ms| ==> AsLines(ms)[i] == MutationLine(ms[i])
  {
    if ms != [] {
      MutationsOfAsLines(ms[..|ms| - 1]);
      var rest := AsLines(ms[..|ms| - 1]);
      assert AsLines(ms)[..|rest|] == rest;
    }
  }

  lemma {:induction false} InsertTransaction(lines: seq<Line>, l: Line)
    requires l.TxLine?
    ensures Mutations(Insert(lines, l)) == Mutations(lines)
  {
    if lines != [] && Key(lines[|lines| - 1]) > Key(l) {
      InsertTransaction(lines[..|lines| - 1], l);
      var rest := Insert(lines[..|lines| - 1], l);
      assert (rest + [lines[|lines| - 1]])[..|rest|] == rest;
    } else {
      assert (lines + [l])[..|lines|] == lines;
    }
  }

  lemma SortAppend(lines: seq<Line>, l: Line)
    ensures StableSort(lines + [l]) == Insert(StableSort(lines), l)
  {
    assert (lines + [l])[..|lines|] == lines;
  }

  /** Mutations already in order stay where they are, whatever transactions are sorted in between. */
  lemma {:induction false} SortKeepsMutations(ms: seq<Mutation>, txs: seq<Line>)
    requires forall i, j :: 0 <= i < j < |ms| ==> ms[i].sequence < ms[j].sequence
    requires forall i :: 0 <= i < |txs| ==> txs[i].TxLine?
    ensures Mutations(StableSort(AsLines(ms) + txs)) == ms
    decreases |txs|
  {
    if txs == [] {
      assert AsLines(ms) + txs == AsLines(ms);
      SortedLines(ms);
      MutationsOfAsLines(ms);
    } else {
      var before, l := AsLines(ms) + txs[..|txs| - 1], txs[|txs| - 1];
      assert AsLines(ms) + txs == before + [l];
      SortAppend(before, l);
      SortKeepsMutations(ms, txs[..|txs| - 1]);
      InsertTransaction(StableSort(before), l);
    }
  }

  lemma {:induction false} SortedLines(ms: seq<Mutation>)
    requires forall i, j :: 0 <= i < j < |ms| ==> ms[i].sequence < ms[j].sequence
    ensures StableSort(AsLines(ms)) == AsLines(ms)
  {
    MutationsOfAsLines(ms);
    if ms != [] {
      var rest := ms[..|ms| - 1];
      SortedLines(rest);
      MutationsOfAsLines(rest);
      assert AsLines(ms)[..|ms| - 1] == AsLines(rest);
    }
  }

  lemma {:induction false} BindAllKeeps(ms: seq<Mutation>, results: map<string, string>)
    ensures |BindAll(ms, results)| == |ms|
    ensures forall i :: 0 <= i < |ms| ==> BindAll(ms, results)[i] == BindOne(ms[i], results)
  {
    if ms != [] {
      BindAllKeeps(ms[..|ms| - 1], results);
    }
  }

  /** Binding rewrites the journal, yet changes nothing about the mutations
      except the tree entries of the ones it binds. */
  lemma BindKeepsMutations(w: World, results: map<string, string>)
    requires SequencesOk(Mutations(w.journal), w.sequence)
    ensures Mutations(DoBind(w, results).journal) == BindAll(Mutations(w.journal), results)
  {
    var ms := Mutations(w.journal);
    var bound := BindAll(ms, results);
    BindAllKeeps(ms, results);
    if bound != ms {
      MutationsOfTransactions(w.journal);
      SortKeepsMutations(bound, Transactions(w.journal));
    }
  }

  /** The mutations of the second read, with those of the first bound. */
  function BoundOver(first: seq<Mutation>, second: seq<Mutation>, results: map<string, string>): seq<Mutation>
    requires first <= second
  {
    BindAll(first, results) + second[|first|..]
  }

  /** Binding with its awaits: the first read decides what is bound, the second
      what is kept, and the journal is rewritten later, if anything was bound. */
  function BindFrom(w: World, first: seq<Line>, second: seq<Line>, results: map<string, string>): World
    requires first <= second
  {
    var ms := Mutations(first);
    if BindAll(ms, results) == ms then w
    else
      PrefixMutations(first, second);
      w.(journal := StableSort(AsLines(BoundOver(ms, Mutations(second), results)) + Transactions(second)))
  }

  /** Without anything in between it is the binding in one step. */
  lemma BindAtOnce(w: World, results: map<string, string>)
    ensures BindFrom(w, w.journal, w.journal, results) == DoBind(w, results)
  {
    var ms := Mutations(w.journal);
    assert BoundOver(ms, ms, results) == BindAll(ms, results);
  }

  lemma BoundOverSame(first: seq<Mutation>, second: seq<Mutation>, results: map<string, string>)
    requires first <= second
    ensures SameButEntries(second, BoundOver(first, second, results))
  {
    BindAllKeeps(first, results);
  }

  /** What the journal holds after a rewrite: the second read, bound as the first one decides. */
  lemma RewriteHolds(w: World, first: seq<Line>, second: seq<Line>, results: map<string, string>, sequence: nat)
    requires first <= second && SequencesOk(Mutations(second), sequence) && BindAll(Mutations(first), results) != Mutations(first)
    ensures Mutations(first) <= Mutations(second)
    ensures Mutations(BindFrom(w, first, second, results).journal) == BoundOver(Mutations(first), Mutations(second), results)
  {
    PrefixMutations(first, second);
    var bound := BoundOver(Mutations(first), Mutations(second), results);
    BoundOverSame(Mutations(first), Mutations(second), results);
    assert forall i :: 0 <= i < |bound| ==> bound[i].sequence == Mutations(second)[i].sequence;
    MutationsOfTransactions(second);
    SortKeepsMutations(bound, Transactions(second));
  }

  /** Exactly when a binding keeps every mutation journalled by the time it
      rewrites: when none was appended after its second read, or there is nothing
      to bind in its first one. */
  lemma BindLosesAppendedIff(w: World, first: seq<Line>, second: seq<Line>, results: map<string, string>, sequence: nat)
    requires first <= second <= w.journal && SequencesOk(Mutations(second), sequence)
    ensures SameButEntries(Mutations(w.journal), Mutations(BindFrom(w, first, second, results).journal)) <==>
      Mutations(w.journal) == Mutations(second) || BindAll(Mutations(first), results) == Mutations(first)
  {
    PrefixMutations(second, w.journal);
    if BindAll(Mutations(first), results) != Mutations(first) {
      RewriteHolds(w, first, second, results, sequence);
      BoundOverSame(Mutations(first), Mutations(second), results);
    }
  }

  /** Between the reads and the rewrite the other events only append. */
  lemma {:induction false} JournalGrows(sha: Bytes -> Hash, w: World, es: seq<Event>)
    requires forall i :: 0 <= i < |es| ==> !es[i].Bind?
    ensures w.journal <= Run(sha, w, es).journal
    decreases |es|
  {
    if es != [] {
      JournalGrows(sha, Step(sha, w, es[0]), es[1..]);
    }
  }

  lemma PrefixMutations(a: seq<Line>, b: seq<Line>)
    requires a <= b
    ensures Mutations(a) <= Mutations(b)
  {
    assert b == a + b[|a|..];
    MutationsAppend(a, b[|a|..]);
  }

  lemma MaxIsLast(ms: seq<Mutation>, sequence: nat)
    requires SequencesOk(ms, sequence)
    ensures MaxSequence(ms) == sequence
  {
    if ms != [] {
      MaxBelow(ms[..|ms| - 1], sequence);
    }
  }

  lemma {:induction false} MaxBelow(ms: seq<Mutation>, bound: nat)
    requires forall i :: 0 <= i < |ms| ==> ms[i].sequence <= bound
    ensures MaxSequence(ms) <= bound
  {
    if ms != [] {
      MaxBelow(ms[..|ms| - 1], bound);
    }
  }

  // ---------------------------------------------------------------- every step keeps the invariant

  lemma SideRefOk(sha: Bytes -> Hash, blobs: map<Hash, Bytes>, data: Option<Bytes>)
    requires CollisionFree(sha)
    ensures RefOk(StoreSide(sha, blobs, data), SideRef(sha, data))
    ensures forall h :: h in blobs ==> h in StoreSide(sha, blobs, data) && StoreSide(sha, blobs, data)[h] == blobs[h]
    ensures BlobsOk(sha, blobs) ==> BlobsOk(sha, StoreSide(sha, blobs, data))
  {
    if data.Some? {
      assert Names(SideRef(sha, data), sha(data.value));
    }
  }

  lemma MoreBlobs(small: map<Hash, Bytes>, big: map<Hash, Bytes>, ms: seq<Mutation>)
    requires (forall h :: h in small ==> h in big) && RefsOk(small, ms)
    ensures RefsOk(big, ms)
  {
  }

  lemma RecordedMutations(w: World, m: Mutation, was: Files)
    ensures Mutations(Recorded(w, m, was).journal) == Mutations(w.journal) + [m]
  {
    assert (w.journal + [MutationLine(m)])[..|w.journal|] == w.journal;
  }

  lemma AppendedRefs(blobs: map<Hash, Bytes>, ms: seq<Mutation>, m: Mutation)
    requires RefsOk(blobs, ms) && RefOk(blobs, m.before) && RefOk(blobs, m.after)
    ensures RefsOk(blobs, ms + [m])
  {
  }

  lemma AppendedFaithful(sha: Bytes -> Hash, ms: seq<Mutation>, history: seq<Files>, m: Mutation, was: Files)
    requires Faithful(sha, ms, history) && m.before == RefOf(sha, was, m.path)
    ensures Faithful(sha, ms + [m], history + [was])
  {
  }

  lemma AppendedSequences(ms: seq<Mutation>, sequence: nat, m: Mutation)
    requires SequencesOk(ms, sequence) && m.sequence == sequence + 1
    ensures SequencesOk(ms + [m], m.sequence)
  {
  }

  lemma RecordedKeeps(sha: Bytes -> Hash, w: World, m: Mutation, was: Files)
    requires WorldOk(sha, w) && m.sequence == w.sequence + 1
    requires RefOk(w.blobs, m.before) && RefOk(w.blobs, m.after) && m.before == RefOf(sha, was, m.path)
    ensures WorldOk(sha, Recorded(w, m, was))
  {
    var ms := Mutations(w.journal);
    RecordedMutations(w, m, was);
    AppendedRefs(w.blobs, ms, m);
    AppendedFaithful(sha, ms, w.history, m, was);
    AppendedSequences(ms, w.sequence, m);
  }

  lemma StoreSideKeeps(sha: Bytes -> Hash, w: World, data: Option<Bytes>)
    requires CollisionFree(sha) && WorldOk(sha, w)
    ensures WorldOk(sha, w.(blobs := StoreSide(sha, w.blobs, data)))
  {
    SideRefOk(sha, w.blobs, data);
    MoreBlobs(w.blobs, StoreSide(sha, w.blobs, data), Mutations(w.journal));
  }

  /** A capture keeps the invariant if what it takes for the old content is the old content. */
  lemma CaptureKeeps(sha: Bytes -> Hash, w: World, toolCallId: string, p: Path, before: Option<Bytes>, after: Option<Bytes>,
                     symlink: bool, was: Files)
    requires CollisionFree(sha) && WorldOk(sha, w) && before == Lookup(was, p)
    ensures WorldOk(sha, Capture(sha, w, toolCallId, p, before, after, symlink, was))
  {
    if !symlink && !TooBig(before) {
      StoreSideKeeps(sha, w, before);
      SideRefOk(sha, w.blobs, before);
      CaptureAfterKeeps(sha, w.(blobs := StoreSide(sha, w.blobs, before)), toolCallId, p, SideRef(sha, before), after, was);
    }
  }

  lemma CaptureAfterKeeps(sha: Bytes -> Hash, w: World, toolCallId: string, p: Path, before: string, after: Option<Bytes>, was: Files)
    requires CollisionFree(sha) && WorldOk(sha, w) && RefOk(w.blobs, before) && before == RefOf(sha, was, p)
    ensures WorldOk(sha, CaptureAfter(sha, w, toolCallId, p, before, after, was))
  {
    if !TooBig(after) {
      var stored := w.(blobs := StoreSide(sha, w.blobs, after));
      StoreSideKeeps(sha, w, after);
      if before != SideRef(sha, after) {
        var m := Mutation(w.sequence + 1, toolCallId, p, before, SideRef(sha, after), None);
        StoredRefs(sha, w.blobs, before, after);
        RecordedKeeps(sha, stored, m, was);
        assert CaptureAfter(sha, w, toolCallId, p, before, after, was) == Recorded(stored, m, was);
      }
    }
  }

  lemma StoredRefs(sha: Bytes -> Hash, blobs: map<Hash, Bytes>, before: string, after: Option<Bytes>)
    requires CollisionFree(sha) && RefOk(blobs, before)
    ensures RefOk(StoreSide(sha, blobs, after), before) && RefOk(StoreSide(sha, blobs, after), SideRef(sha, after))
  {
    SideRefOk(sha, blobs, after);
  }

  lemma SideRefInjective(sha: Bytes -> Hash, a: Option<Bytes>, b: Option<Bytes>)
    requires CollisionFree(sha)
    ensures SideRef(sha, a) == SideRef(sha, b) <==> a == b
  {
    if a.Some? {
      BlobRefRoundTrip(sha(a.value));
    }
    if b.Some? {
      BlobRefRoundTrip(sha(b.value));
    }
  }

  lemma EditSlotFaithful(sha: Bytes -> Hash, w: World, toolCallId: string, p: Path, content: Bytes)
    requires CollisionFree(sha) && Faithful(sha, Mutations(w.journal), w.history)
    requires !TooBig(SlotFor(w, p)) && |content| <= MAX_BLOB_SIZE && SlotFor(w, p) != Some(content)
    ensures var w' := DoEditWrite(sha, w, toolCallId, p, content, false);
      Faithful(sha, Mutations(w'.journal), w'.history) <==> SlotFor(w, p) == Lookup(w.files, p)
  {
    var before := SlotFor(w, p);
    SideRefInjective(sha, before, Some(content));
    SideRefInjective(sha, before, Lookup(w.files, p));
    var m := Mutation(w.sequence + 1, toolCallId, p, SideRef(sha, before), SideRef(sha, Some(content)), None);
    RecordedMutations(w, m, w.files);
    var w' := DoEditWrite(sha, w, toolCallId, p, content, false);
    assert w'.journal == w.journal + [MutationLine(m)] && w'.history == w.history + [w.files];
    var n := |Mutations(w.journal)|;
    assert Mutations(w'.journal)[n] == m && w'.history[n] == w.files;
  }

  /** The two lists differ only in the tree entries of their mutations. */
  ghost predicate SameButEntries(a: seq<Mutation>, b: seq<Mutation>) {
    |a| == |b| && forall i :: 0 <= i < |a| ==> b[i].(treeEntryId := a[i].treeEntryId) == a[i]
  }

  lemma BoundRefs(blobs: map<Hash, Bytes>, ms: seq<Mutation>, bound: seq<Mutation>)
    requires SameButEntries(ms, bound) && RefsOk(blobs, ms)
    ensures RefsOk(blobs, bound)
  {
    forall m | m in bound ensures RefOk(blobs, m.before) && RefOk(blobs, m.after) {
      var i :| 0 <= i < |bound| && bound[i] == m;
      assert ms[i] in ms;
    }
  }

  lemma BoundFaithful(sha: Bytes -> Hash, a: seq<Mutation>, b: seq<Mutation>, history: seq<Files>, sequence: nat)
    requires Faithful(sha, a, history) && SequencesOk(a, sequence) && SameButEntries(a, b)
    ensures Faithful(sha, b, history) && SequencesOk(b, sequence)
  {
    assert forall i :: 0 <= i < |a| ==> b[i].before == a[i].before && b[i].path == a[i].path && b[i].sequence == a[i].sequence;
  }

  lemma BindAllSame(ms: seq<Mutation>, results: map<string, string>)
    ensures SameButEntries(ms, BindAll(ms, results))
  {
    BindAllKeeps(ms, results);
  }

  lemma BindKeeps(sha: Bytes -> Hash, w: World, results: map<string, string>)
    requires WorldOk(sha, w)
    ensures WorldOk(sha, DoBind(w, results))
  {
    var ms := Mutations(w.journal);
    BindKeepsMutations(w, results);
    BindAllSame(ms, results);
    BoundRefs(w.blobs, ms, BindAll(ms, results));
    BoundFaithful(sha, ms, BindAll(ms, results), w.history, w.sequence);
  }

  lemma ExecuteJournal(w: World, plan: Plan, undeletable: set<Path>)
    ensures Mutations(Execute(w, plan, undeletable).journal) == Mutations(w.journal)
    ensures Execute(w, plan, undeletable).blobs == w.blobs && Execute(w, plan, undeletable).history == w.history
    ensures Execute(w, plan, undeletable).sequence == w.sequence
  {
    var done := PerformAll(w.files, w.blobs, undeletable, plan.paths);
    var a, b := TxLine(Prepared, Planned(plan.paths)), TxLine(if done.1 then Committed else TxFailed, Planned(plan.paths));
    MutationsAppend(w.journal, [a, b]);
    assert [a, b][..1] == [a] && [a][..0] == [];
    assert Mutations([a]) == [];
    assert Mutations([a, b]) == [];
  }

  lemma StepKeeps(sha: Bytes -> Hash, w: World, e: Event)
    requires CollisionFree(sha) && WorldOk(sha, w) && InStep(w, e)
    ensures WorldOk(sha, Step(sha, w, e))
  {
    match e
    case Write(toolCallId, p, content, symlink) =>
      var w1 := w.(files := w.files[p := content]);
      assert WorldOk(sha, w1);
      CaptureKeeps(sha, w1, toolCallId, p, Lookup(w.files, p), Some(content), symlink, w.files);
    case EditRead(p) =>
    case EditWrite(toolCallId, p, content, symlink) =>
      var w1 := w.(files := w.files[p := content]);
      assert WorldOk(sha, w1);
      CaptureKeeps(sha, w1, toolCallId, p, SlotFor(w, p), Some(content), symlink, w.files);
    case External(p, now) =>
    case Bind(results) => BindKeeps(sha, w, results);
    case Resume => MaxIsLast(Mutations(w.journal), w.sequence);
    case Rollback(target, branch, undeletable) => ExecuteJournal(w, ComputePlan(sha, w, target, branch), undeletable);
  }

  lemma {:induction false} RunKeeps(sha: Bytes -> Hash, w: World, es: seq<Event>)
    requires CollisionFree(sha) && WorldOk(sha, w) && InStepRun(sha, w, es)
    ensures WorldOk(sha, Run(sha, w, es))
    decreases |es|
  {
    if es != [] {
      StepKeeps(sha, w, es[0]);
      RunKeeps(sha, Step(sha, w, es[0]), es[1..]);
    }
  }

  // ---------------------------------------------------------------- edits and the order of events

  lemma {:induction false} RunSnoc(sha: Bytes -> Hash, w: World, es: seq<Event>, e: Event)
    ensures Run(sha, w, es + [e]) == Step(sha, Run(sha, w, es), e)
    decreases |es|
  {
    if es == [] {
      assert es + [e] == [e] && [e][1..] == [];
    } else {
      assert (es + [e])[1..] == es[1..] + [e] && (es + [e])[0] == es[0];
      RunSnoc(sha, Step(sha, w, es[0]), es[1..], e);
    }
  }

  /** The last read of an edit that found its file, unless an edit was written or a
      session resumed since. */
  function LastRead(sha: Bytes -> Hash, files: Files, es: seq<Event>): (k: Option<nat>)
    ensures k.Some? ==> k.value < |es| && es[k.value].EditRead?
  {
    if es == [] then None
    else
      var init := es[..|es| - 1];
      match es[|es| - 1]
      case EditRead(p) => if p in Run(sha, Fresh(files), init).files then Some(|es| - 1) else LastRead(sha, files, init)
      case EditWrite(_, _, _, _) => None
      case Resume => None
      case _ => LastRead(sha, files, init)
  }

  /** The files as they were before event k. */
  function FilesAt(sha: Bytes -> Hash, files: Files, es: seq<Event>, k: nat): Files
    requires k <= |es|
  {
    Run(sha, Fresh(files), es[..k]).files
  }

  /** What the read at event k found. */
  function FoundAt(sha: Bytes -> Hash, files: Files, es: seq<Event>, k: nat): Option<(Path, Bytes)>
    requires k < |es| && es[k].EditRead?
  {
    var p, those := es[k].path, FilesAt(sha, files, es, k);
    if p in those then Some((p, those[p])) else None
  }

  lemma SlotStep(sha: Bytes -> Hash, w: World, e: Event)
    ensures Step(sha, w, e).slot ==
      match e
      case EditRead(p) => if p in w.files then Some((p, w.files[p])) else w.slot
      case EditWrite(_, _, _, _) => None
      case Resume => None
      case _ => w.slot
  {
  }

  lemma FoundBefore(sha: Bytes -> Hash, files: Files, es: seq<Event>, e: Event, k: nat)
    requires k < |es| && es[k].EditRead?
    ensures FoundAt(sha, files, es + [e], k) == FoundAt(sha, files, es, k)
  {
    assert (es + [e])[..k] == es[..k];
  }

  /** The hidden slot is what the last read found. */
  lemma {:induction false} SlotIsLastRead(sha: Bytes -> Hash, files: Files, es: seq<Event>)
    ensures var k := LastRead(sha, files, es);
      Run(sha, Fresh(files), es).slot == if k.None? then None else FoundAt(sha, files, es, k.value)
  {
    if es != [] {
      var init, e := es[..|es| - 1], es[|es| - 1];
      SlotIsLastRead(sha, files, init);
      assert init + [e] == es;
      RunSnoc(sha, Fresh(files), init, e);
      SlotStep(sha, Run(sha, Fresh(files), init), e);
      var k := LastRead(sha, files, init);
      if k.Some? {
        FoundBefore(sha, files, init, e, k.value);
      }
    }
  }

  /** What an edit of p will be journalled as having found. */
  function ReadBefore(sha: Bytes -> Hash, files: Files, es: seq<Event>, p: Path): Option<Bytes> {
    var k := LastRead(sha, files, es);
    if k.Some? && es[k.value].path == p then Lookup(FilesAt(sha, files, es, k.value), p) else None
  }

  /** Exactly when an edit that is journalled is journalled rightly: when the last
      read was of its path and the file has not changed since, or the last read
      was not of its path and the file does not exist. */
  lemma EditFaithfulIff(sha: Bytes -> Hash, files: Files, es: seq<Event>, w: World, toolCallId: string, p: Path, content: Bytes)
    requires CollisionFree(sha) && w == Run(sha, Fresh(files), es) && Faithful(sha, Mutations(w.journal), w.history)
    requires !TooBig(ReadBefore(sha, files, es, p)) && |content| <= MAX_BLOB_SIZE && ReadBefore(sha, files, es, p) != Some(content)
    ensures var w' := DoEditWrite(sha, w, toolCallId, p, content, false);
      var k := LastRead(sha, files, es);
      Faithful(sha, Mutations(w'.journal), w'.history) <==>
        if k.Some? && es[k.value].path == p then Lookup(FilesAt(sha, files, es, k.value), p) == Lookup(w.files, p)
        else p !in w.files
  {
    SlotIsLastRead(sha, files, es);
    EditSlotFaithful(sha, w, toolCallId, p, content);
  }

  /** A path that no entry acts on is left alone. */
  lemma {:induction false} UnplannedUntouched(files: Files, blobs: map<Hash, Bytes>, undeletable: set<Path>, es: seq<PlanEntry>, p: Path)
    requires p !in Planned(es)
    ensures Lookup(PerformAll(files, blobs, undeletable, es).0, p) == Lookup(files, p)
  {
    if es != [] {
      UnplannedUntouched(files, blobs, undeletable, es[..|es| - 1], p);
    }
  }

  /** While an edit is under way the slot holds what its file holds. */
  predicate Holds(w: World, open: Option<Path>) {
    open.Some? ==> open.value in w.files && w.slot == Some((open.value, w.files[open.value]))
  }

  lemma OpenHolds(sha: Bytes -> Hash, w: World, open: Option<Path>, e: Event)
    requires Holds(w, open)
    ensures Holds(Step(sha, w, e), Open(sha, w, open, e))
  {
    match e
    case Rollback(target, branch, undeletable) =>
      var plan := ComputePlan(sha, w, target, branch);
      if open.Some? && open.value !in Planned(plan.paths) {
        UnplannedUntouched(w.files, w.blobs, undeletable, plan.paths, open.value);
      }
    case _ =>
  }

  /** Edits that do not interleave are captured rightly. */
  lemma {:induction false} ApartIsInStep(sha: Bytes -> Hash, w: World, es: seq<Event>, open: Option<Path>)
    requires Holds(w, open) && Apart(sha, w, es, open)
    ensures InStepRun(sha, w, es)
    decreases |es|
  {
    if es != [] {
      OpenHolds(sha, w, open, es[0]);
      ApartIsInStep(sha, Step(sha, w, es[0]), es[1..], Open(sha, w, open, es[0]));
    }
  }

  // ---------------------------------------------------------------- the plan and its execution

  /** A path is in conflict exactly when the file is not what the last selected mutation left. */
  lemma ConflictIff(sha: Bytes -> Hash, blobs: map<Hash, Bytes>, files: Files, p: Path, expected: string)
    requires CollisionFree(sha) && RefOk(blobs, expected)
    ensures InConflict(sha, files, p, expected) <==> RefOf(sha, files, p) != expected
  {
    RefOkReads(blobs, expected);
    if p in files {
      BlobRefRoundTrip(sha(files[p]));
    }
  }

  lemma {:induction false} NoConflicts(sha: Bytes -> Hash, files: Files, sel: seq<Mutation>, ps: seq<Path>)
    requires forall p :: p in ps ==> p in LastOf(sel)
    ensures Conflicts(sha, files, sel, ps) == [] <==>
      forall p :: p in ps ==> !InConflict(sha, files, p, LastOf(sel)[p].after)
  {
    if ps != [] {
      NoConflicts(sha, files, sel, ps[..|ps| - 1]);
      assert ps[|ps| - 1] in ps;
      assert forall p :: p in ps <==> p in ps[..|ps| - 1] || p == ps[|ps| - 1];
    }
  }

  lemma {:induction false} PerformAppend(files: Files, blobs: map<Hash, Bytes>, undeletable: set<Path>, a: seq<PlanEntry>, b: seq<PlanEntry>)
    ensures PerformAll(files, blobs, undeletable, a + b) ==
      var d := PerformAll(files, blobs, undeletable, a); if d.1 then PerformAll(d.0, blobs, undeletable, b) else d
  {
    if b == [] {
      assert a + b == a;
    } else {
      assert (a + b)[..|a + b| - 1] == a + b[..|b| - 1];
      PerformAppend(files, blobs, undeletable, a, b[..|b| - 1]);
    }
  }

  /** The file system a rollback aims at, for one path. */
  predicate Restored(sha: Bytes -> Hash, was: Files, now: Files, p: Path, goal: string, undeletable: set<Path>) {
    if goal == "absent" && p in undeletable then Lookup(now, p) == Lookup(was, p) else RefOf(sha, now, p) == goal
  }

  /** The entry that decides what happens to a path. */
  function Decision(sha: Bytes -> Hash, was: Files, p: Path, goal: string): PlanEntry {
    var current := Digest(sha, was, p);
    if goal == "absent" then PlanEntry(p, if p in was then Delete else Noop, current, None)
    else if current == ParseBlobRef(goal) then PlanEntry(p, Noop, current, current)
    else PlanEntry(p, Restore, current, ParseBlobRef(goal))
  }

  lemma DecisionRestores(sha: Bytes -> Hash, blobs: map<Hash, Bytes>, was: Files, files: Files, p: Path, goal: string, undeletable: set<Path>)
    requires CollisionFree(sha) && BlobsOk(sha, blobs) && RefOk(blobs, goal)
    requires Lookup(files, p) == Lookup(was, p)
    ensures var d := Perform(files, blobs, undeletable, Decision(sha, was, p, goal));
      && d.Some? && Restored(sha, was, d.value, p, goal, undeletable)
      && forall q :: q != p ==> Lookup(d.value, q) == Lookup(files, q)
  {
    RefOkReads(blobs, goal);
  }

  lemma PerformPlanned(sha: Bytes -> Hash, blobs: map<Hash, Bytes>, was: Files, files: Files, p: Path, goal: string, expected: string, undeletable: set<Path>)
    requires RefOk(blobs, goal) && Perform(files, blobs, undeletable, Decision(sha, was, p, goal)).Some?
    ensures PerformAll(files, blobs, undeletable, EntriesFor(sha, was, p, goal, expected)) ==
      (Perform(files, blobs, undeletable, Decision(sha, was, p, goal)).value, true)
  {
    var act := Decision(sha, was, p, goal);
    assert EntriesFor(sha, was, p, goal, expected) == NoopFor(p, expected) + [act] by {
      RefOkReads(blobs, goal);
    }
    NoopThenAct(blobs, files, p, expected, act, undeletable);
  }

  function NoopFor(p: Path, expected: string): seq<PlanEntry> {
    if expected == "absent" then [PlanEntry(p, Noop, None, None)] else []
  }

  lemma NoopThenAct(blobs: map<Hash, Bytes>, files: Files, p: Path, expected: string, act: PlanEntry, undeletable: set<Path>)
    requires Perform(files, blobs, undeletable, act).Some?
    ensures PerformAll(files, blobs, undeletable, NoopFor(p, expected) + [act]) == (Perform(files, blobs, undeletable, act).value, true)
  {
    var noop := NoopFor(p, expected);
    PerformAppend(files, blobs, undeletable, noop, [act]);
    assert noop[..0] == [] && [act][..0] == [];
    assert PerformAll(files, blobs, undeletable, noop) == (files, true);
  }

  /** The entries planned for one path bring it to its goal and touch nothing else. */
  lemma PerformOne(sha: Bytes -> Hash, blobs: map<Hash, Bytes>, was: Files, files: Files, p: Path, goal: string, expected: string, undeletable: set<Path>)
    requires CollisionFree(sha) && BlobsOk(sha, blobs) && RefOk(blobs, goal)
    requires Lookup(files, p) == Lookup(was, p)
    ensures var d := PerformAll(files, blobs, undeletable, EntriesFor(sha, was, p, goal, expected));
      && d.1 && Restored(sha, was, d.0, p, goal, undeletable)
      && forall q :: q != p ==> Lookup(d.0, q) == Lookup(files, q)
  {
    DecisionRestores(sha, blobs, was, files, p, goal, undeletable);
    PerformPlanned(sha, blobs, was, files, p, goal, expected, undeletable);
  }

  /** Every path of the list is at its goal, and no other path has changed. */
  ghost predicate AllRestored(sha: Bytes -> Hash, was: Files, now: Files, ps: seq<Path>, first: map<Path, Mutation>, undeletable: set<Path>) {
    && (forall p :: p in ps && p in first ==> Restored(sha, was, now, p, first[p].before, undeletable))
    && (forall p :: p !in ps ==> Lookup(now, p) == Lookup(was, p))
  }

  lemma OneMoreRestored(sha: Bytes -> Hash, was: Files, mid: Files, end: Files, rest: seq<Path>, p: Path, first: map<Path, Mutation>, undeletable: set<Path>)
    requires AllRestored(sha, was, mid, rest, first, undeletable) && p in first && p !in rest
    requires Restored(sha, was, end, p, first[p].before, undeletable)
    requires forall q :: q != p ==> Lookup(end, q) == Lookup(mid, q)
    ensures AllRestored(sha, was, end, rest + [p], first, undeletable)
  {
    forall q | q in rest && q in first ensures Restored(sha, was, end, q, first[q].before, undeletable) {
      assert Lookup(end, q) == Lookup(mid, q);
    }
  }

  lemma {:induction false} PerformEntries(sha: Bytes -> Hash, w: World, sel: seq<Mutation>, ps: seq<Path>, undeletable: set<Path>)
    requires CollisionFree(sha) && BlobsOk(sha, w.blobs)
    requires forall p :: p in ps ==> p in LastOf(sel) && p in FirstOf(sel) && RefOk(w.blobs, FirstOf(sel)[p].before)
    requires forall p :: p in ps ==> !InConflict(sha, w.files, p, LastOf(sel)[p].after)
    requires forall i, j :: 0 <= i < j < |ps| ==> ps[i] != ps[j]
    ensures var d := PerformAll(w.files, w.blobs, undeletable, Entries(sha, w.files, sel, ps));
      d.1 && AllRestored(sha, w.files, d.0, ps, FirstOf(sel), undeletable)
  {
    if ps != [] {
      var rest, p := ps[..|ps| - 1], ps[|ps| - 1];
      assert ps == rest + [p] && p in ps && p !in rest;
      PerformEntries(sha, w, sel, rest, undeletable);
      var a := Entries(sha, w.files, sel, rest);
      var b := EntriesFor(sha, w.files, p, FirstOf(sel)[p].before, LastOf(sel)[p].after);
      PerformAppend(w.files, w.blobs, undeletable, a, b);
      var mid := PerformAll(w.files, w.blobs, undeletable, a).0;
      PerformOne(sha, w.blobs, w.files, mid, p, FirstOf(sel)[p].before, LastOf(sel)[p].after, undeletable);
      OneMoreRestored(sha, w.files, mid, PerformAll(mid, w.blobs, undeletable, b).0, rest, p, FirstOf(sel), undeletable);
    }
  }

  // ---------------------------------------------------------------- theorems

  predicate IsSelected(m: Mutation, target: string, branch: set<string>) {
    m.treeEntryId.Some? && m.treeEntryId.value != "" && m.treeEntryId.value in branch && m.treeEntryId.value != target
  }

  lemma {:induction false} SelectMembers(ms: seq<Mutation>, target: string, branch: set<string>)
    ensures forall m :: m in Select(ms, target, branch) <==> m in ms && IsSelected(m, target, branch)
  {
    if ms != [] {
      SelectMembers(ms[..|ms| - 1], target, branch);
    }
  }

  lemma {:induction false} FirstAndLastAreMembers(sel: seq<Mutation>)
    ensures forall p :: p in FirstOf(sel) ==> FirstOf(sel)[p] in sel && FirstOf(sel)[p].path == p
    ensures forall p :: p in LastOf(sel) ==> LastOf(sel)[p] in sel && LastOf(sel)[p].path == p
  {
    if sel != [] {
      FirstAndLastAreMembers(sel[..|sel| - 1]);
    }
  }

  lemma FirstOfSelect(ms: seq<Mutation>, target: string, branch: set<string>)
    requires ms != []
    ensures var first := FirstOf(Select(ms[..|ms| - 1], target, branch)); var m := ms[|ms| - 1];
      FirstOf(Select(ms, target, branch)) == if IsSelected(m, target, branch) && m.path !in first then first[m.path := m] else first
  {
    var rest := Select(ms[..|ms| - 1], target, branch);
    assert (rest + [ms[|ms| - 1]])[..|rest|] == rest;
  }

  /** Where in the journal the first selected mutation of a path is. */
  lemma {:induction false} FirstIndex(ms: seq<Mutation>, target: string, branch: set<string>, p: Path) returns (k: nat)
    requires p in FirstOf(Select(ms, target, branch))
    ensures k < |ms| && ms[k] == FirstOf(Select(ms, target, branch))[p]
    ensures ms[k].path == p && IsSelected(ms[k], target, branch)
    ensures forall i :: 0 <= i < k ==> !(ms[i].path == p && IsSelected(ms[i], target, branch))
  {
    var rest, m := ms[..|ms| - 1], ms[|ms| - 1];
    FirstOfSelect(ms, target, branch);
    if p in FirstOf(Select(rest, target, branch)) {
      k := FirstIndex(rest, target, branch, p);
    } else {
      k := |ms| - 1;
      NotYet(rest, target, branch, p);
    }
  }

  lemma {:induction false} NotYet(ms: seq<Mutation>, target: string, branch: set<string>, p: Path)
    requires p !in FirstOf(Select(ms, target, branch))
    ensures forall i :: 0 <= i < |ms| ==> !(ms[i].path == p && IsSelected(ms[i], target, branch))
  {
    if ms != [] {
      NotYet(ms[..|ms| - 1], target, branch, p);
    }
  }

  function Selected(w: World, target: string, branch: set<string>): seq<Mutation> {
    Select(Mutations(w.journal), target, branch)
  }

  lemma SelectedRefs(w: World, target: string, branch: set<string>)
    requires RefsOk(w.blobs, Mutations(w.journal))
    ensures var sel := Selected(w, target, branch);
      && (forall p :: p in FirstOf(sel) ==> RefOk(w.blobs, FirstOf(sel)[p].before))
      && (forall p :: p in LastOf(sel) ==> RefOk(w.blobs, LastOf(sel)[p].after))
  {
    SelectMembers(Mutations(w.journal), target, branch);
    FirstAndLastAreMembers(Selected(w, target, branch));
  }

  /** The plan reports no conflict exactly when every path it would touch still
      holds what its last selected mutation left there. */
  lemma PlanHasNoConflictIff(sha: Bytes -> Hash, w: World, target: string, branch: set<string>)
    requires CollisionFree(sha) && StoreOk(sha, w) && target in branch
    ensures var sel := Selected(w, target, branch);
      ComputePlan(sha, w, target, branch).conflicts == [] <==>
        forall p :: p in LastOf(sel) ==> RefOf(sha, w.files, p) == LastOf(sel)[p].after
  {
    var sel := Selected(w, target, branch);
    PathsAreKeys(sel);
    SelectedRefs(w, target, branch);
    NoConflicts(sha, w.files, sel, PathsOf(sel));
    forall p | p in LastOf(sel)
      ensures InConflict(sha, w.files, p, LastOf(sel)[p].after) <==> RefOf(sha, w.files, p) != LastOf(sel)[p].after
    {
      ConflictIff(sha, w.blobs, w.files, p, LastOf(sel)[p].after);
    }
  }

  /** Carrying out a plan without conflicts always commits; it brings every
      path with a selected mutation to the content before the first of them,
      and changes no other path.  A file that should go but cannot be unlinked
      stays as it is, and the transaction commits all the same. */
  lemma ExecuteRestores(sha: Bytes -> Hash, w: World, target: string, branch: set<string>, undeletable: set<Path>)
    requires CollisionFree(sha) && StoreOk(sha, w) && target in branch
    requires ComputePlan(sha, w, target, branch).conflicts == []
    ensures var sel := Selected(w, target, branch);
      var w' := Execute(w, ComputePlan(sha, w, target, branch), undeletable);
      && w'.journal[|w'.journal| - 1].TxLine? && w'.journal[|w'.journal| - 1].state == Committed
      && (forall p :: p in FirstOf(sel) ==> Restored(sha, w.files, w'.files, p, FirstOf(sel)[p].before, undeletable))
      && (forall p :: p !in FirstOf(sel) ==> Lookup(w'.files, p) == Lookup(w.files, p))
  {
    var sel := Selected(w, target, branch);
    PathsAreKeys(sel);
    SelectedRefs(w, target, branch);
    NoConflicts(sha, w.files, sel, PathsOf(sel));
    PerformEntries(sha, w, sel, PathsOf(sel), undeletable);
  }

  /** Whether the entries of one path would do something. */
  lemma EntriesForActive(sha: Bytes -> Hash, blobs: map<Hash, Bytes>, files: Files, p: Path, goal: string, expected: string)
    requires CollisionFree(sha) && RefOk(blobs, goal)
    ensures (exists e :: e in EntriesFor(sha, files, p, goal, expected) && e.action != Noop) <==> RefOf(sha, files, p) != goal
  {
    RefOkReads(blobs, goal);
    var es := EntriesFor(sha, files, p, goal, expected);
    if p in files {
      BlobRefRoundTrip(sha(files[p]));
    }
    assert es[|es| - 1].action != Noop <==> RefOf(sha, files, p) != goal;
    assert |es| == 2 ==> es[0].action == Noop;
    assert es[|es| - 1] in es;
  }

  lemma {:induction false} EntriesActive(sha: Bytes -> Hash, w: World, sel: seq<Mutation>, ps: seq<Path>)
    requires CollisionFree(sha)
    requires forall p :: p in ps ==> p in LastOf(sel) && p in FirstOf(sel) && RefOk(w.blobs, FirstOf(sel)[p].before)
    requires forall p :: p in ps ==> !InConflict(sha, w.files, p, LastOf(sel)[p].after)
    ensures (exists e :: e in Entries(sha, w.files, sel, ps) && e.action != Noop) <==>
      exists p :: p in ps && RefOf(sha, w.files, p) != FirstOf(sel)[p].before
  {
    if ps != [] {
      var rest, p := ps[..|ps| - 1], ps[|ps| - 1];
      assert p in ps;
      EntriesActive(sha, w, sel, rest);
      EntriesForActive(sha, w.blobs, w.files, p, FirstOf(sel)[p].before, LastOf(sel)[p].after);
      var a, b := Entries(sha, w.files, sel, rest), EntriesFor(sha, w.files, p, FirstOf(sel)[p].before, LastOf(sel)[p].after);
      assert forall e :: e in a + b <==> e in a || e in b;
      assert forall q :: q in ps <==> q in rest || q == p;
    }
  }

  /** The rollback command, refusal included: when there is no conflict, every
      path with a selected mutation ends up as it was before the first of them -
      the command refuses only when all of them already are - and no other path changes. */
  lemma RollbackRestores(sha: Bytes -> Hash, w: World, target: string, branch: set<string>)
    requires CollisionFree(sha) && StoreOk(sha, w) && target in branch
    requires ComputePlan(sha, w, target, branch).conflicts == []
    ensures var sel := Selected(w, target, branch);
      var now := DoRollback(sha, w, target, branch, {}).files;
      && (forall p :: p in FirstOf(sel) ==> RefOf(sha, now, p) == FirstOf(sel)[p].before)
      && (forall p :: p !in FirstOf(sel) ==> Lookup(now, p) == Lookup(w.files, p))
  {
    var sel := Selected(w, target, branch);
    PathsAreKeys(sel);
    SelectedRefs(w, target, branch);
    NoConflicts(sha, w.files, sel, PathsOf(sel));
    EntriesActive(sha, w, sel, PathsOf(sel));
    ExecuteRestores(sha, w, target, branch, {});
  }

  /** Undo inverts capture.  Take any run from any file system - writes, edits
      that do not interleave, other programs' changes, skipped captures,
      bindings, restarts, earlier rollbacks.  If the plan has no conflict, then
      after it every path with a selected mutation is back to what it was just
      before the first of them, and every other path is as it was. */
  lemma UndoInvertsCapture(sha: Bytes -> Hash, files: Files, es: seq<Event>, target: string, branch: set<string>, p: Path)
    returns (k: nat)
    requires CollisionFree(sha) && Apart(sha, Fresh(files), es, None) && target in branch
    requires ComputePlan(sha, Run(sha, Fresh(files), es), target, branch).conflicts == []
    ensures var w := Run(sha, Fresh(files), es);
      var ms := Mutations(w.journal);
      var now := DoRollback(sha, w, target, branch, {}).files;
      if exists m :: m in ms && m.path == p && IsSelected(m, target, branch) then
        && k < |ms| && k < |w.history| && ms[k].path == p && IsSelected(ms[k], target, branch)
        && (forall i :: 0 <= i < k ==> !(ms[i].path == p && IsSelected(ms[i], target, branch)))
        && Lookup(now, p) == Lookup(w.history[k], p)
      else Lookup(now, p) == Lookup(w.files, p)
  {
    var w := Run(sha, Fresh(files), es);
    var ms := Mutations(w.journal);
    assert WorldOk(sha, Fresh(files));
    ApartIsInStep(sha, Fresh(files), es, None);
    RunKeeps(sha, Fresh(files), es);
    RollbackRestores(sha, w, target, branch);
    var sel := Selected(w, target, branch);
    var now := DoRollback(sha, w, target, branch, {}).files;
    k := 0;
    if p in FirstOf(sel) {
      k := FirstIndex(ms, target, branch, p);
      assert ms[k] in ms;
      RefOfDecides(sha, now, w.history[k], p);
    } else {
      NotYet(ms, target, branch, p);
    }
  }

  // ---------------------------------------------------------------- when a plan is free of conflicts

  /** The event changes files only through a capture that succeeds. */
  predicate Captured(w: World, e: Event) {
    match e
    case Write(_, p, content, symlink) => !symlink && !TooBig(Lookup(w.files, p)) && |content| <= MAX_BLOB_SIZE
    case EditWrite(_, p, content, symlink) => !symlink && !TooBig(Lookup(w.files, p)) && |content| <= MAX_BLOB_SIZE
    case External(_, _) => false
    case Rollback(_, _, _) => false
    case _ => true
  }

  predicate CapturedRun(sha: Bytes -> Hash, w: World, es: seq<Event>)
    decreases |es|
  {
    es == [] || (Captured(w, es[0]) && CapturedRun(sha, Step(sha, w, es[0]), es[1..]))
  }

  /** The journal knows the current content of every path it mentions. */
  ghost predicate Tracked(sha: Bytes -> Hash, w: World) {
    forall p :: p in LastOf(Mutations(w.journal)) ==> LastOf(Mutations(w.journal))[p].after == RefOf(sha, w.files, p)
  }

  lemma CaptureTracks(sha: Bytes -> Hash, w: World, toolCallId: string, p: Path, content: Bytes)
    requires CollisionFree(sha) && Tracked(sha, w) && !TooBig(Lookup(w.files, p)) && |content| <= MAX_BLOB_SIZE
    ensures Tracked(sha, DoWrite(sha, w, toolCallId, p, content, false))
  {
    var before := Lookup(w.files, p);
    var w' := DoWrite(sha, w, toolCallId, p, content, false);
    SideRefInjective(sha, before, Some(content));
    if before != Some(content) {
      var m := Mutation(w.sequence + 1, toolCallId, p, SideRef(sha, before), SideRef(sha, Some(content)), None);
      RecordedMutations(w, m, w.files);
      assert w'.journal == w.journal + [MutationLine(m)];
      var ms := Mutations(w.journal);
      assert (ms + [m])[..|ms|] == ms;
      assert LastOf(ms + [m]) == LastOf(ms)[p := m];
    } else {
      assert w'.files == w.files && w'.journal == w.journal;
    }
  }

  lemma {:induction false} LastOfBound(a: seq<Mutation>, b: seq<Mutation>)
    requires SameButEntries(a, b)
    ensures LastOf(a).Keys == LastOf(b).Keys
    ensures forall p :: p in LastOf(a) ==> LastOf(b)[p].after == LastOf(a)[p].after
  {
    if a != [] {
      var i := |a| - 1;
      assert b[i].path == a[i].path && b[i].after == a[i].after;
      LastOfBound(a[..i], b[..i]);
    }
  }

  lemma CapturedStepTracks(sha: Bytes -> Hash, w: World, e: Event)
    requires CollisionFree(sha) && WorldOk(sha, w) && Tracked(sha, w) && Captured(w, e) && InStep(w, e)
    ensures Tracked(sha, Step(sha, w, e))
  {
    match e
    case Write(toolCallId, p, content, symlink) => CaptureTracks(sha, w, toolCallId, p, content);
    case EditRead(p) =>
    case EditWrite(toolCallId, p, content, symlink) => CaptureTracks(sha, w, toolCallId, p, content);
    case Bind(results) =>
      BindKeepsMutations(w, results);
      BindAllKeeps(Mutations(w.journal), results);
      LastOfBound(Mutations(w.journal), BindAll(Mutations(w.journal), results));
    case Resume =>
  }

  lemma {:induction false} CapturedRunTracks(sha: Bytes -> Hash, w: World, es: seq<Event>)
    requires CollisionFree(sha) && WorldOk(sha, w) && Tracked(sha, w) && CapturedRun(sha, w, es) && InStepRun(sha, w, es)
    ensures Tracked(sha, Run(sha, w, es)) && WorldOk(sha, Run(sha, w, es))
    decreases |es|
  {
    if es != [] {
      CapturedStepTracks(sha, w, es[0]);
      StepKeeps(sha, w, es[0]);
      CapturedRunTracks(sha, Step(sha, w, es[0]), es[1..]);
    }
  }

  /** A run in which every change was captured never meets a conflict, as long
      as no selected path was last changed by a mutation left out of the selection. */
  lemma CapturedRunsDoNotConflict(sha: Bytes -> Hash, files: Files, es: seq<Event>, target: string, branch: set<string>)
    requires CollisionFree(sha) && CapturedRun(sha, Fresh(files), es) && Apart(sha, Fresh(files), es, None) && target in branch
    requires var w := Run(sha, Fresh(files), es);
      forall p :: p in LastOf(Selected(w, target, branch)) ==>
        p in LastOf(Mutations(w.journal)) && LastOf(Mutations(w.journal))[p] == LastOf(Selected(w, target, branch))[p]
    ensures ComputePlan(sha, Run(sha, Fresh(files), es), target, branch).conflicts == []
  {
    assert WorldOk(sha, Fresh(files)) && Tracked(sha, Fresh(files));
    ApartIsInStep(sha, Fresh(files), es, None);
    CapturedRunTracks(sha, Fresh(files), es);
    PlanHasNoConflictIff(sha, Run(sha, Fresh(files), es), target, branch);
  }

  /** The mutations a rollback undid stay selected, so it can be planned again
      exactly when it had nothing to undo: when on every selected path the last
      mutation left what the first one found. */
  lemma RollbackRepeatsIff(sha: Bytes -> Hash, w: World, target: string, branch: set<string>)
    requires CollisionFree(sha) && StoreOk(sha, w) && target in branch
    requires ComputePlan(sha, w, target, branch).conflicts == []
    ensures var sel := Selected(w, target, branch);
      var w' := Execute(w, ComputePlan(sha, w, target, branch), {});
      ComputePlan(sha, w', target, branch).conflicts == [] <==>
        forall p :: p in FirstOf(sel) && p in LastOf(sel) ==> FirstOf(sel)[p].before == LastOf(sel)[p].after
  {
    var w' := Execute(w, ComputePlan(sha, w, target, branch), {});
    var sel := Selected(w, target, branch);
    ExecuteRestores(sha, w, target, branch, {});
    ExecuteJournal(w, ComputePlan(sha, w, target, branch), {});
    PathsAreKeys(sel);
    assert Selected(w', target, branch) == sel;
    assert StoreOk(sha, w');
    PlanHasNoConflictIff(sha, w', target, branch);
  }

  // ---------------------------------------------------------------- what the selection selects

  /** The mutations bound to entries strictly below position k of a branch given from root to leaf. */
  function StrictlyBelow(ms: seq<Mutation>, line: seq<string>, k: nat): seq<Mutation>
    requires k < |line|
  {
    if ms == [] then []
    else
      var rest := StrictlyBelow(ms[..|ms| - 1], line, k);
      var m := ms[|ms| - 1];
      if m.treeEntryId.Some? && m.treeEntryId.value != "" && m.treeEntryId.value in line[k + 1..] then rest + [m] else rest
  }

  /** The selection is the strict descendants of the target, as its comment
      says, exactly when no mutation is bound to a strict ancestor. */
  lemma {:induction false} SelectionIsDescendantsIff(ms: seq<Mutation>, line: seq<string>, k: nat)
    requires k < |line| && forall i, j :: 0 <= i < j < |line| ==> line[i] != line[j]
    ensures Select(ms, line[k], set e | e in line) == StrictlyBelow(ms, line, k) <==>
      forall m :: m in ms && m.treeEntryId.Some? && m.treeEntryId.value != "" ==> m.treeEntryId.value !in line[..k]
    ensures |StrictlyBelow(ms, line, k)| <= |Select(ms, line[k], set e | e in line)|
    ensures (exists m :: m in ms && m.treeEntryId.Some? && m.treeEntryId.value != "" && m.treeEntryId.value in line[..k]) ==>
      |StrictlyBelow(ms, line, k)| < |Select(ms, line[k], set e | e in line)|
  {
    if ms != [] {
      var rest, m := ms[..|ms| - 1], ms[|ms| - 1];
      SelectionIsDescendantsIff(rest, line, k);
      assert forall x :: x in ms <==> x in rest || x == m;
      if m.treeEntryId.Some? {
        var e := m.treeEntryId.value;
        assert line == line[..k] + [line[k]] + line[k + 1..];
        assert e in line <==> e in line[..k] || e == line[k] || e in line[k + 1..];
        assert e in line[..k] ==> e != line[k] && e !in line[k + 1..];
        assert e in line[k + 1..] ==> e != line[k];
      }
    }
  }

  // ---------------------------------------------------------------- two families of runs that go wrong

  /** One mutation in the journal, bound by the next binding. */
  lemma BindSingle(w: World, m: Mutation, results: map<string, string>)
    requires w.journal == [MutationLine(m)] && m.treeEntryId == None && m.sequence == w.sequence > 0
    ensures Mutations(DoBind(w, results).journal) == [BindOne(m, results)]
  {
    assert [MutationLine(m)][..0] == [];
    assert Mutations(w.journal) == [m];
    BindKeepsMutations(w, results);
    BindAllKeeps([m], results);
  }

  /** Undoing a single bound mutation that is recorded as a creation deletes the file. */
  lemma UndoDeletes(sha: Bytes -> Hash, w: World, m: Mutation, target: string, branch: set<string>)
    requires CollisionFree(sha) && target in branch && IsSelected(m, target, branch)
    requires Mutations(w.journal) == [m] && m.before == "absent" && StoreOk(sha, w)
    requires m.path in w.files && m.after == BlobRef(sha(w.files[m.path]))
    ensures m.path !in DoRollback(sha, w, target, branch, {}).files
  {
    var now := DoRollback(sha, w, target, branch, {}).files;
    assert [m][..0] == [];
    assert Select([m], target, branch) == [m];
    assert FirstOf([m]) == map[m.path := m] && LastOf([m]) == map[m.path := m];
    PlanHasNoConflictIff(sha, w, target, branch);
    RollbackRestores(sha, w, target, branch);
    assert RefOf(sha, now, m.path) == "absent";
    if m.path in now {
      BlobRefRoundTrip(sha(now[m.path]));
    }
  }

  /** The journal of a fresh session holds one creation of p, not bound yet. */
  predicate JustCreated(sha: Bytes -> Hash, w: World, p: Path, content: Bytes, call: string) {
    && w.journal == [MutationLine(Mutation(1, call, p, "absent", BlobRef(sha(content)), None))] && w.sequence == 1
    && w.blobs == map[sha(content) := content] && p in w.files && w.files[p] == content
  }

  lemma UndoOfCreation(sha: Bytes -> Hash, w: World, p: Path, content: Bytes, call: string, entry: string, target: string)
    requires CollisionFree(sha) && entry != "" && entry != target && JustCreated(sha, w, p, content, call)
    ensures p !in DoRollback(sha, DoBind(w, map[call := entry]), target, {target, entry}, {}).files
  {
    var m := Mutation(1, call, p, "absent", BlobRef(sha(content)), None);
    var results := map[call := entry];
    BindSingle(w, m, results);
    var bound := DoBind(w, results);
    assert BindOne(m, results) == m.(treeEntryId := Some(entry));
    assert Names(m.after, sha(content));
    assert StoreOk(sha, bound);
    UndoDeletes(sha, bound, BindOne(m, results), target, {target, entry});
  }

  /** An edit of a file whose slot was lost is journalled as a creation. */
  lemma EditTakenForCreation(sha: Bytes -> Hash, w: World, call: string, p: Path, content: Bytes)
    requires SlotFor(w, p) == None && w.journal == [] && w.blobs == map[] && w.sequence == 0 && |content| <= MAX_BLOB_SIZE
    ensures JustCreated(sha, DoEditWrite(sha, w, call, p, content, false), p, content, call)
  {
    BlobRefRoundTrip(sha(content));
  }

  /** The first write of a session in an empty directory. */
  lemma WriteCreates(sha: Bytes -> Hash, call: string, p: Path, content: Bytes)
    requires |content| <= MAX_BLOB_SIZE
    ensures JustCreated(sha, DoWrite(sha, Fresh(map[]), call, p, content, false), p, content, call)
  {
    BlobRefRoundTrip(sha(content));
  }

  /** Why edits must not interleave: g is read between f's read and f's write,
      the slot no longer belongs to f, f's mutation is recorded as a creation,
      and undoing it deletes a file that was there all along. */
  lemma InterleavedEditsLoseAFile(sha: Bytes -> Hash, before: Files, f: Path, g: Path, content: Bytes,
                                  call: string, entry: string, target: string)
    requires CollisionFree(sha) && f in before && g in before && f != g && |content| <= MAX_BLOB_SIZE
    requires entry != "" && entry != target
    ensures var read := DoEditRead(DoEditRead(Fresh(before), f), g);
      var bound := DoBind(DoEditWrite(sha, read, call, f, content, false), map[call := entry]);
      f !in DoRollback(sha, bound, target, {target, entry}, {}).files
  {
    var read := DoEditRead(DoEditRead(Fresh(before), f), g);
    EditTakenForCreation(sha, read, call, f, content);
    UndoOfCreation(sha, DoEditWrite(sha, read, call, f, content, false), f, content, call, entry, target);
  }

  /** Why a mutation of an ancestor breaks the promise: f is created at an
      ancestor of the target, so it exists at the target, and the rollback to
      the target removes it. */
  lemma AncestorMutationIsUndone(sha: Bytes -> Hash, f: Path, content: Bytes, call: string, ancestor: string, target: string)
    requires CollisionFree(sha) && |content| <= MAX_BLOB_SIZE && ancestor != "" && ancestor != target
    ensures var bound := DoBind(DoWrite(sha, Fresh(map[]), call, f, content, false), map[call := ancestor]);
      f in bound.files && f !in DoRollback(sha, bound, target, {target, ancestor}, {}).files
  {
    var made := DoWrite(sha, Fresh(map[]), call, f, content, false);
    WriteCreates(sha, call, f, content);
    UndoOfCreation(sha, made, f, content, call, ancestor, target);
  }

  /** Writing a file that does not exist appends one creation to the journal. */
  lemma WriteAppends(sha: Bytes -> Hash, w: World, call: string, p: Path, content: Bytes)
    requires p !in w.files && |content| <= MAX_BLOB_SIZE
    ensures DoWrite(sha, w, call, p, content, false).journal ==
      w.journal + [MutationLine(Mutation(w.sequence + 1, call, p, "absent", BlobRef(sha(content)), None))]
  {
    BlobRefRoundTrip(sha(content));
  }

  lemma RewriteOfOne(w: World, m: Mutation, results: map<string, string>)
    requires BindOne(m, results) != m && m.sequence > 0
    ensures Mutations(BindFrom(w, [MutationLine(m)], [MutationLine(m)], results).journal) == [BindOne(m, results)]
  {
    assert [MutationLine(m)][..0] == [] && Mutations([MutationLine(m)]) == [m];
    BindAllKeeps([m], results);
    RewriteHolds(w, [MutationLine(m)], [MutationLine(m)], results, m.sequence);
    assert BoundOver([m], [m], results) == [BindOne(m, results)];
  }

  /** A run that loses a mutation: f is written, the binding reads the journal, g
      is written and journalled, and the rewrite drops it again. */
  lemma BindLosesAWrite(sha: Bytes -> Hash, f: Path, g: Path, content: Bytes, call: string, entry: string, other: string)
    requires f != g && |content| <= MAX_BLOB_SIZE && entry != ""
    ensures var w1 := DoWrite(sha, Fresh(map[]), call, f, content, false);
      var w2 := DoWrite(sha, w1, other, g, content, false);
      var w3 := BindFrom(w2, w1.journal, w1.journal, map[call := entry]);
      var m := Mutation(1, call, f, "absent", BlobRef(sha(content)), None);
      && Mutations(w2.journal) == [m, Mutation(2, other, g, "absent", BlobRef(sha(content)), None)]
      && Mutations(w3.journal) == [m.(treeEntryId := Some(entry))]
  {
    var w1 := DoWrite(sha, Fresh(map[]), call, f, content, false);
    var w2 := DoWrite(sha, w1, other, g, content, false);
    var m := Mutation(1, call, f, "absent", BlobRef(sha(content)), None);
    var n := Mutation(2, other, g, "absent", BlobRef(sha(content)), None);
    WriteCreates(sha, call, f, content);
    assert w1.journal == [MutationLine(m)] && w1.sequence == 1 && g !in w1.files;
    WriteAppends(sha, w1, other, g, content);
    MutationsOfTwo(w2.journal, m, n);
    RewriteOfOne(w2, m, map[call := entry]);
  }

  lemma MutationsOfTwo(lines: seq<Line>, m: Mutation, n: Mutation)
    requires lines == [MutationLine(m)] + [MutationLine(n)]
    ensures Mutations(lines) == [m, n]
  {
    var one := [MutationLine(m)];
    assert one[..0] == [] && Mutations(one) == [m];
    assert lines[..|lines| - 1] == one;
  }

  // ---------------------------------------------------------------- the extension itself

  /** Session state, journal, blob store and working files as the extension keeps them. */
  class RollbackExtension {
    const sha: Bytes -> Hash
    var files: Files
    var blobs: map<Hash, Bytes>
    var journal: seq<Line>
    var sequence: nat
    var editBefore: Option<(Path, Bytes)>
    ghost var history: seq<Files>

    ghost function View(): World
      reads this
    {
      World(files, blobs, journal, sequence, editBefore, history)
    }

    constructor (sha: Bytes -> Hash, files: Files)
      ensures this.sha == sha && View() == Fresh(files)
    {
      this.sha := sha;
      this.files := files;
      blobs, journal, sequence, editBefore, history := map[], [], 0, None, [];
    }

    method StoreBlob(data: Bytes) returns (ok: bool, hash: Hash)
      modifies this`blobs
      ensures ok == (|data| <= MAX_BLOB_SIZE) && hash == sha(data)
      ensures blobs == if ok then WriteBlob(sha, old(blobs), data) else old(blobs)
    {
      hash := sha(data);
      if |data| > MAX_BLOB_SIZE {
        return false, hash;
      }
      if hash !in blobs {
        blobs := blobs[hash := data];
      }
      return true, hash;
    }

    method CaptureMutation(toolCallId: string, path: Path, before: Option<Bytes>, after: Option<Bytes>, symlink: bool, ghost was: Files)
      modifies this
      ensures View() == Capture(sha, old(View()), toolCallId, path, before, after, symlink, was)
    {
      if symlink {
        return;
      }
      var beforeRef, afterRef := "absent", "absent";
      if before.Some? {
        var ok, hash := StoreBlob(before.value);
        if !ok {
          return;
        }
        beforeRef := BlobRef(hash);
      }
      if after.Some? {
        var ok, hash := StoreBlob(after.value);
        if !ok {
          return;
        }
        afterRef := BlobRef(hash);
      }
      if beforeRef == afterRef {
        return;
      }
      sequence := sequence + 1;
      journal := journal + [MutationLine(Mutation(sequence, toolCallId, path, beforeRef, afterRef, None))];
      history := history + [was];
    }

    method WriteFile(toolCallId: string, path: Path, content: Bytes, symlink: bool)
      modifies this
      ensures View() == DoWrite(sha, old(View()), toolCallId, path, content, symlink)
    {
      ghost var was := files;
      var before := Lookup(files, path);
      files := files[path := content];
      CaptureMutation(toolCallId, path, before, Some(content), symlink, was);
    }

    method EditReadFile(path: Path) returns (data: Option<Bytes>)
      modifies this`editBefore
      ensures data == Lookup(files, path)
      ensures View() == DoEditRead(old(View()), path)
    {
      data := Lookup(files, path);
      if data.Some? {
        editBefore := Some((path, data.value));
      }
    }

    method EditWriteFile(toolCallId: string, path: Path, content: Bytes, symlink: bool)
      modifies this
      ensures View() == DoEditWrite(sha, old(View()), toolCallId, path, content, symlink)
    {
      ghost var was := files;
      files := files[path := content];
      var before := if editBefore.Some? && editBefore.value.0 == path then Some(editBefore.value.1) else None;
      CaptureMutation(toolCallId, path, before, Some(content), symlink, was);
      editBefore := None;
    }

    /** Take up an existing journal: the sequence goes on from its largest number. */
    method ResumeJournal()
      modifies this`sequence, this`editBefore
      ensures View() == Step(sha, old(View()), Resume)
    {
      var ms := Mutations(journal);
      sequence, editBefore := 0, None;
      for i := 0 to |ms|
        invariant sequence == MaxSequence(ms[..i]) && editBefore == None
      {
        assert ms[..i + 1][..i] == ms[..i];
        if ms[i].sequence > sequence {
          sequence := ms[i].sequence;
        }
      }
      assert ms[..|ms|] == ms;
    }

    /** The rest of a binding, once its two reads are back. */
    method RewriteBound(first: seq<Line>, second: seq<Line>, results: map<string, string>)
      requires first <= second
      modifies this`journal
      ensures View() == BindFrom(old(View()), first, second, results)
    {
      var ms := Mutations(first);
      var bound: seq<Mutation> := [];
      for i := 0 to |ms|
        invariant bound == BindAll(ms[..i], results)
      {
        assert ms[..i + 1][..i] == ms[..i];
        bound := bound + [BindOne(ms[i], results)];
      }
      assert ms[..|ms|] == ms;
      if bound != ms {
        PrefixMutations(first, second);
        journal := StableSort(AsLines(bound + Mutations(second)[|ms|..]) + Transactions(second));
      }
    }

    /** Bind mutations to the entries of their tool results and rewrite the journal. */
    method BindTreeEntries(results: map<string, string>)
      modifies this`journal
      ensures View() == DoBind(old(View()), results)
    {
      RewriteBound(journal, journal, results);
      BindAtOnce(old(View()), results);
    }

    method SelectAfterTarget(target: string, branch: set<string>) returns (sel: seq<Mutation>)
      ensures sel == Select(Mutations(journal), target, branch)
    {
      var ms := Mutations(journal);
      sel := [];
      for i := 0 to |ms|
        invariant sel == Select(ms[..i], target, branch)
      {
        assert ms[..i + 1][..i] == ms[..i];
        if IsSelected(ms[i], target, branch) {
          sel := sel + [ms[i]];
        }
      }
      assert ms[..|ms|] == ms;
    }

    /** Group the selected mutations by path. */
    method Group(sel: seq<Mutation>) returns (paths: seq<Path>, pathFirst: map<Path, Mutation>, pathLast: map<Path, Mutation>)
      ensures paths == PathsOf(sel) && pathFirst == FirstOf(sel) && pathLast == LastOf(sel)
    {
      paths, pathFirst, pathLast := [], map[], map[];
      for i := 0 to |sel|
        invariant paths == PathsOf(sel[..i]) && pathFirst == FirstOf(sel[..i]) && pathLast == LastOf(sel[..i])
      {
        assert sel[..i + 1][..i] == sel[..i];
        PathsAreKeys(sel[..i]);
        var m := sel[i];
        if m.path !in pathFirst {
          pathFirst := pathFirst[m.path := m];
          paths := paths + [m.path];
        }
        pathLast := pathLast[m.path := m];
      }
      assert sel[..|sel|] == sel;
    }

    /** Find the conflicts and decide an action for every other path. */
    method Examine(sel: seq<Mutation>, order: seq<Path>, pathFirst: map<Path, Mutation>, pathLast: map<Path, Mutation>)
      returns (paths: seq<PlanEntry>, conflicts: seq<Path>)
      requires pathFirst == FirstOf(sel) && pathLast == LastOf(sel)
      requires forall p :: p in order ==> p in pathFirst && p in pathLast
      ensures paths == Entries(sha, files, sel, order) && conflicts == Conflicts(sha, files, sel, order)
    {
      paths, conflicts := [], [];
      for i := 0 to |order|
        invariant paths == Entries(sha, files, sel, order[..i])
        invariant conflicts == Conflicts(sha, files, sel, order[..i])
      {
        assert order[..i + 1][..i] == order[..i];
        var p := order[i];
        if InConflict(sha, files, p, pathLast[p].after) {
          conflicts := conflicts + [p];
        } else {
          paths := paths + EntriesFor(sha, files, p, pathFirst[p].before, pathLast[p].after);
        }
      }
      assert order[..|order|] == order;
    }

    method ComputeRollbackPlan(target: string, branch: set<string>) returns (plan: Plan)
      ensures plan == ComputePlan(sha, View(), target, branch)
    {
      if target !in branch {
        return Plan(false, [], [target]);
      }
      var sel := SelectAfterTarget(target, branch);
      var order, pathFirst, pathLast := Group(sel);
      PathsAreKeys(sel);
      var paths, conflicts := Examine(sel, order, pathFirst, pathLast);
      var active := exists e :: e in paths && e.action != Noop;
      plan := Plan(conflicts == [] && active, paths, conflicts);
    }

    method ExecuteRollback(plan: Plan, undeletable: set<Path>) returns (committed: bool)
      modifies this`files, this`journal
      ensures View() == Execute(old(View()), plan, undeletable)
      ensures committed == PerformAll(old(files), blobs, undeletable, plan.paths).1
    {
      journal := journal + [TxLine(Prepared, Planned(plan.paths))];
      committed := true;
      for i := 0 to |plan.paths|
        invariant journal == old(journal) + [TxLine(Prepared, Planned(plan.paths))]
        invariant committed && PerformAll(old(files), blobs, undeletable, plan.paths[..i]) == (files, true)
      {
        assert plan.paths[..i + 1][..i] == plan.paths[..i];
        var p := plan.paths[i];
        if p.action == Delete {
          if p.path !in undeletable {
            files := files - {p.path};
          }
        } else if p.action == Restore && Truthy(p.target) {
          if p.target.value !in blobs {
            committed := false;
            FailsEarly(old(files), blobs, undeletable, plan.paths, i + 1);
            break;
          }
          files := files[p.path := blobs[p.target.value]];
        }
      }
      assert plan.paths[..|plan.paths|] == plan.paths;
      var done := TxLine(if committed then Committed else TxFailed, Planned(plan.paths));
      assert journal + [done] == old(journal) + [TxLine(Prepared, Planned(plan.paths)), done];
      journal := journal + [done];
    }
  }

  /** Once an entry fails, nothing after it is done. */
  lemma {:induction false} FailsEarly(files: Files, blobs: map<Hash, Bytes>, undeletable: set<Path>, es: seq<PlanEntry>, n: nat)
    requires n <= |es| && !PerformAll(files, blobs, undeletable, es[..n]).1
    ensures PerformAll(files, blobs, undeletable, es) == PerformAll(files, blobs, undeletable, es[..n])
    decreases |es| - n
  {
    if n == |es| {
      assert es[..n] == es;
    } else {
      assert es[..n + 1][..n] == es[..n];
      FailsEarly(files, blobs, undeletable, es, n + 1);
    }
  }
}
