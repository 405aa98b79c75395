/** Rollback read off from the events: which changes were captured and to which
    tree entries they were bound follows from the calls and the contents of the
    files, and so does what a rollback does to every path.
 */
module RollbackEvents {
  import opened FileRollback

  /** A captured change: the call that made it, what the file held before and
      after, and the tree entry it has been bound to. */
  datatype Change = Change(call: string, path: Path, before: Option<Bytes>, after: Bytes, entry: Option<string>)

  /** The file can be captured, and the tool changes it. */
  predicate Captures(files: Files, p: Path, content: Bytes, symlink: bool) {
    !symlink && |content| <= MAX_BLOB_SIZE && Lookup(files, p) != Some(content) && (p in files ==> |files[p]| <= MAX_BLOB_SIZE)
  }

  /** A change without an entry gets that of its call's result, if there is one. */
  function BoundBy(c: Change, results: map<string, string>): Change {
    if c.entry == None && c.call in results && results[c.call] != "" then c.(entry := Some(results[c.call])) else c
  }

  /** What one more event adds. */
  function Added(files: Files, cs: seq<Change>, e: Event): seq<Change> {
    match e
    case Write(call, p, content, symlink) => if Captures(files, p, content, symlink) then cs + [Change(call, p, Lookup(files, p), content, None)] else cs
    case EditWrite(call, p, content, symlink) => if Captures(files, p, content, symlink) then cs + [Change(call, p, Lookup(files, p), content, None)] else cs
    case Bind(results) => seq(|cs|, i requires 0 <= i < |cs| => BoundBy(cs[i], results))
    case _ => cs
  }

  /** The changes that the events add up to. */
  function Changes(sha: Bytes -> Hash, files: Files, es: seq<Event>): seq<Change> {
    if es == [] then []
    else
      var init, e := es[..|es| - 1], es[|es| - 1];
      Added(Run(sha, Fresh(files), init).files, Changes(sha, files, init), e)
  }

  // ---------------------------------------------------------------- the journal holds the changes

  ghost predicate Journals(sha: Bytes -> Hash, ms: seq<Mutation>, cs: seq<Change>) {
    |ms| == |cs| && forall i :: 0 <= i < |ms| ==>
      && ms[i].toolCallId == cs[i].call && ms[i].path == cs[i].path && ms[i].treeEntryId == cs[i].entry
      && ms[i].before == SideRef(sha, cs[i].before) && ms[i].after == SideRef(sha, Some(cs[i].after))
  }

  lemma CaptureJournals(sha: Bytes -> Hash, w: World, call: string, p: Path, content: Bytes, symlink: bool, cs: seq<Change>)
    requires CollisionFree(sha) && Journals(sha, Mutations(w.journal), cs)
    ensures Journals(sha, Mutations(DoWrite(sha, w, call, p, content, symlink).journal),
      if Captures(w.files, p, content, symlink) then cs + [Change(call, p, Lookup(w.files, p), content, None)] else cs)
  {
    var before, w' := Lookup(w.files, p), DoWrite(sha, w, call, p, content, symlink);
    SideRefInjective(sha, before, Some(content));
    if Captures(w.files, p, content, symlink) {
      var m := Mutation(w.sequence + 1, call, p, SideRef(sha, before), SideRef(sha, Some(content)), None);
      assert w'.journal == w.journal + [MutationLine(m)];
      assert w'.journal[..|w.journal|] == w.journal;
    } else {
      assert w'.journal == w.journal;
    }
  }

  lemma EditIsWrite(sha: Bytes -> Hash, w: World, call: string, p: Path, content: Bytes, symlink: bool)
    requires SlotFor(w, p) == Lookup(w.files, p)
    ensures DoEditWrite(sha, w, call, p, content, symlink).journal == DoWrite(sha, w, call, p, content, symlink).journal
  {
  }

  /** What a binding makes of one mutation: without an entry, if its call has a
      result, it gets that result's id, and otherwise it keeps what it has. */
  predicate Binds(a: Mutation, b: Mutation, results: map<string, string>) {
    && b == a.(treeEntryId := b.treeEntryId)
    && b.treeEntryId == if a.treeEntryId == None && a.toolCallId in results && results[a.toolCallId] != ""
                        then Some(results[a.toolCallId]) else a.treeEntryId
  }

  /** A binding, mutation by mutation. */
  lemma BindGivesEntries(w: World, results: map<string, string>)
    requires SequencesOk(Mutations(w.journal), w.sequence)
    ensures var a, b := Mutations(w.journal), Mutations(DoBind(w, results).journal);
      |a| == |b| && forall i :: 0 <= i < |a| ==> Binds(a[i], b[i], results)
  {
    var a := Mutations(w.journal);
    BindKeepsMutations(w, results);
    BindAllKeeps(a, results);
    forall i | 0 <= i < |a| ensures Binds(a[i], BindOne(a[i], results), results) {
      BindsOne(a[i], results);
    }
  }

  lemma BindsOne(m: Mutation, results: map<string, string>)
    ensures Binds(m, BindOne(m, results), results)
  {
  }

  lemma BindJournals(sha: Bytes -> Hash, w: World, results: map<string, string>, cs: seq<Change>)
    requires SequencesOk(Mutations(w.journal), w.sequence) && Journals(sha, Mutations(w.journal), cs)
    ensures Journals(sha, Mutations(DoBind(w, results).journal), seq(|cs|, i requires 0 <= i < |cs| => BoundBy(cs[i], results)))
  {
    BindGivesEntries(w, results);
  }

  lemma RollbackJournals(sha: Bytes -> Hash, w: World, target: string, branch: set<string>, undeletable: set<Path>)
    ensures Mutations(DoRollback(sha, w, target, branch, undeletable).journal) == Mutations(w.journal)
  {
    ExecuteJournal(w, ComputePlan(sha, w, target, branch), undeletable);
  }

  lemma {:induction false} InStepSnoc(sha: Bytes -> Hash, w: World, es: seq<Event>, e: Event)
    ensures InStepRun(sha, w, es + [e]) <==> InStepRun(sha, w, es) && InStep(Run(sha, w, es), e)
    decreases |es|
  {
    if es == [] {
      assert es + [e] == [e] && [e][1..] == [];
    } else {
      assert (es + [e])[1..] == es[1..] + [e] && (es + [e])[0] == es[0];
      InStepSnoc(sha, Step(sha, w, es[0]), es[1..], e);
    }
  }

  lemma StepJournals(sha: Bytes -> Hash, w: World, cs: seq<Change>, e: Event)
    requires CollisionFree(sha) && WorldOk(sha, w) && InStep(w, e) && Journals(sha, Mutations(w.journal), cs)
    ensures Journals(sha, Mutations(Step(sha, w, e).journal), Added(w.files, cs, e))
  {
    match e
    case Write(call, p, content, symlink) => CaptureJournals(sha, w, call, p, content, symlink, cs);
    case EditWrite(call, p, content, symlink) =>
      CaptureJournals(sha, w, call, p, content, symlink, cs);
      EditIsWrite(sha, w, call, p, content, symlink);
    case Bind(results) => BindJournals(sha, w, results, cs);
    case Rollback(target, branch, undeletable) => RollbackJournals(sha, w, target, branch, undeletable);
    case _ =>
  }

  /** The journal holds exactly the changes that the events add up to. */
  lemma {:induction false} JournalIsChanges(sha: Bytes -> Hash, files: Files, es: seq<Event>)
    requires CollisionFree(sha) && InStepRun(sha, Fresh(files), es)
    ensures var w := Run(sha, Fresh(files), es); WorldOk(sha, w) && Journals(sha, Mutations(w.journal), Changes(sha, files, es))
    decreases |es|
  {
    assert WorldOk(sha, Fresh(files));
    RunKeeps(sha, Fresh(files), es);
    if es != [] {
      var init, e := es[..|es| - 1], es[|es| - 1];
      assert es == init + [e];
      InStepSnoc(sha, Fresh(files), init, e);
      RunSnoc(sha, Fresh(files), init, e);
      JournalIsChanges(sha, files, init);
      StepJournals(sha, Run(sha, Fresh(files), init), Changes(sha, files, init), e);
    }
  }

  /** The tools and other programs change exactly the file they name. */
  lemma FilesFollowEvents(sha: Bytes -> Hash, w: World, e: Event, p: Path)
    requires !e.Rollback?
    ensures Lookup(Step(sha, w, e).files, p) ==
      if (e.Write? || e.EditWrite?) && e.path == p then Some(e.content)
      else if e.External? && e.path == p then e.now
      else Lookup(w.files, p)
  {
  }

  // ---------------------------------------------------------------- what a rollback does

  /** The change is bound to an entry of the branch other than the target. */
  predicate Chosen(c: Change, target: string, branch: set<string>) {
    c.entry.Some? && c.entry.value != "" && c.entry.value in branch && c.entry.value != target
  }

  /** Change k is the first, or the last, chosen one of its path. */
  predicate IsFirst(cs: seq<Change>, k: nat, target: string, branch: set<string>) {
    k < |cs| && Chosen(cs[k], target, branch) && forall i :: 0 <= i < k ==> !(cs[i].path == cs[k].path && Chosen(cs[i], target, branch))
  }

  predicate IsLast(cs: seq<Change>, k: nat, target: string, branch: set<string>) {
    k < |cs| && Chosen(cs[k], target, branch) && forall i :: k < i < |cs| ==> !(cs[i].path == cs[k].path && Chosen(cs[i], target, branch))
  }

  /** Every path still holds what its last chosen change left there. */
  predicate Undisturbed(cs: seq<Change>, files: Files, target: string, branch: set<string>) {
    forall k :: 0 <= k < |cs| && IsLast(cs, k, target, branch) ==> Lookup(files, cs[k].path) == Some(cs[k].after)
  }

  lemma ChosenIsSelected(sha: Bytes -> Hash, ms: seq<Mutation>, cs: seq<Change>, i: nat, target: string, branch: set<string>)
    requires Journals(sha, ms, cs) && i < |ms|
    ensures IsSelected(ms[i], target, branch) <==> Chosen(cs[i], target, branch)
  {
  }

  lemma LastOfSelect(ms: seq<Mutation>, target: string, branch: set<string>)
    requires ms != []
    ensures var last := LastOf(Select(ms[..|ms| - 1], target, branch)); var m := ms[|ms| - 1];
      LastOf(Select(ms, target, branch)) == if IsSelected(m, target, branch) then last[m.path := m] else last
  {
    var rest := Select(ms[..|ms| - 1], target, branch);
    assert (rest + [ms[|ms| - 1]])[..|rest|] == rest;
  }

  lemma {:induction false} LastIndex(ms: seq<Mutation>, target: string, branch: set<string>, p: Path) returns (k: nat)
    requires p in LastOf(Select(ms, target, branch))
    ensures k < |ms| && ms[k] == LastOf(Select(ms, target, branch))[p] && ms[k].path == p && IsSelected(ms[k], target, branch)
    ensures forall i :: k < i < |ms| ==> !(ms[i].path == p && IsSelected(ms[i], target, branch))
  {
    var rest, m := ms[..|ms| - 1], ms[|ms| - 1];
    LastOfSelect(ms, target, branch);
    if m.path == p && IsSelected(m, target, branch) {
      k := |ms| - 1;
    } else {
      k := LastIndex(rest, target, branch, p);
    }
  }

  lemma {:induction false} SelectedHasLast(ms: seq<Mutation>, target: string, branch: set<string>, i: nat)
    requires i < |ms| && IsSelected(ms[i], target, branch)
    ensures ms[i].path in LastOf(Select(ms, target, branch)) && ms[i].path in FirstOf(Select(ms, target, branch))
  {
    var rest := ms[..|ms| - 1];
    LastOfSelect(ms, target, branch);
    FirstOfSelect(ms, target, branch);
    if i < |rest| {
      SelectedHasLast(rest, target, branch, i);
    }
  }

  lemma RefIsContent(sha: Bytes -> Hash, files: Files, p: Path, content: Option<Bytes>)
    requires CollisionFree(sha)
    ensures RefOf(sha, files, p) == SideRef(sha, content) <==> Lookup(files, p) == content
  {
    assert RefOf(sha, files, p) == SideRef(sha, Lookup(files, p));
    SideRefInjective(sha, Lookup(files, p), content);
  }

  lemma NoConflictIff(sha: Bytes -> Hash, w: World, cs: seq<Change>, target: string, branch: set<string>)
    requires CollisionFree(sha) && WorldOk(sha, w) && Journals(sha, Mutations(w.journal), cs) && target in branch
    ensures ComputePlan(sha, w, target, branch).conflicts == [] <==> Undisturbed(cs, w.files, target, branch)
  {
    var ms, sel := Mutations(w.journal), Selected(w, target, branch);
    PlanHasNoConflictIff(sha, w, target, branch);
    if Undisturbed(cs, w.files, target, branch) {
      forall p | p in LastOf(sel) ensures RefOf(sha, w.files, p) == LastOf(sel)[p].after {
        var k := LastIndex(ms, target, branch, p);
        ChosenIsSelected(sha, ms, cs, k, target, branch);
        assert IsLast(cs, k, target, branch);
        RefIsContent(sha, w.files, p, Some(cs[k].after));
      }
    }
    if forall p :: p in LastOf(sel) ==> RefOf(sha, w.files, p) == LastOf(sel)[p].after {
      forall k | 0 <= k < |cs| && IsLast(cs, k, target, branch) ensures Lookup(w.files, cs[k].path) == Some(cs[k].after) {
        LastIsLast(sha, ms, cs, k, target, branch);
        RefIsContent(sha, w.files, cs[k].path, Some(cs[k].after));
      }
    }
  }

  lemma LastIsLast(sha: Bytes -> Hash, ms: seq<Mutation>, cs: seq<Change>, k: nat, target: string, branch: set<string>)
    requires Journals(sha, ms, cs) && IsLast(cs, k, target, branch)
    ensures var last := LastOf(Select(ms, target, branch)); cs[k].path in last && last[cs[k].path] == ms[k]
  {
    ChosenIsSelected(sha, ms, cs, k, target, branch);
    SelectedHasLast(ms, target, branch, k);
    var j := LastIndex(ms, target, branch, cs[k].path);
    ChosenIsSelected(sha, ms, cs, j, target, branch);
    assert j == k;
  }

  lemma FirstIsFirst(sha: Bytes -> Hash, ms: seq<Mutation>, cs: seq<Change>, k: nat, target: string, branch: set<string>)
    requires Journals(sha, ms, cs) && IsFirst(cs, k, target, branch)
    ensures var first := FirstOf(Select(ms, target, branch)); cs[k].path in first && first[cs[k].path] == ms[k]
  {
    ChosenIsSelected(sha, ms, cs, k, target, branch);
    SelectedHasLast(ms, target, branch, k);
    var j := FirstIndex(ms, target, branch, cs[k].path);
    ChosenIsSelected(sha, ms, cs, j, target, branch);
    assert j == k;
  }

  /** What a rollback does to a path, given the changes. */
  predicate Undoes(cs: seq<Change>, was: Files, now: Files, target: string, branch: set<string>, p: Path) {
    if target in branch && Undisturbed(cs, was, target, branch) then
      && (forall k :: 0 <= k < |cs| && IsFirst(cs, k, target, branch) && cs[k].path == p ==> Lookup(now, p) == cs[k].before)
      && ((forall k :: 0 <= k < |cs| && cs[k].path == p ==> !Chosen(cs[k], target, branch)) ==> Lookup(now, p) == Lookup(was, p))
    else now == was
  }

  lemma RollbackUndoes(sha: Bytes -> Hash, w: World, cs: seq<Change>, target: string, branch: set<string>, p: Path)
    requires CollisionFree(sha) && WorldOk(sha, w) && Journals(sha, Mutations(w.journal), cs)
    ensures Undoes(cs, w.files, DoRollback(sha, w, target, branch, {}).files, target, branch, p)
  {
    if target in branch {
      NoConflictIff(sha, w, cs, target, branch);
      if Undisturbed(cs, w.files, target, branch) {
        CleanRollbackUndoes(sha, w, cs, target, branch, p);
      }
    }
  }

  lemma CleanRollbackUndoes(sha: Bytes -> Hash, w: World, cs: seq<Change>, target: string, branch: set<string>, p: Path)
    requires CollisionFree(sha) && WorldOk(sha, w) && Journals(sha, Mutations(w.journal), cs) && target in branch
    requires ComputePlan(sha, w, target, branch).conflicts == []
    ensures var now := DoRollback(sha, w, target, branch, {}).files;
      && (forall k :: 0 <= k < |cs| && IsFirst(cs, k, target, branch) && cs[k].path == p ==> Lookup(now, p) == cs[k].before)
      && ((forall k :: 0 <= k < |cs| && cs[k].path == p ==> !Chosen(cs[k], target, branch)) ==> Lookup(now, p) == Lookup(w.files, p))
  {
    var ms, now := Mutations(w.journal), DoRollback(sha, w, target, branch, {}).files;
    RollbackRestores(sha, w, target, branch);
    forall k | 0 <= k < |cs| && IsFirst(cs, k, target, branch) && cs[k].path == p ensures Lookup(now, p) == cs[k].before {
      FirstIsFirst(sha, ms, cs, k, target, branch);
      RefIsContent(sha, now, p, cs[k].before);
    }
    if forall k :: 0 <= k < |cs| && cs[k].path == p ==> !Chosen(cs[k], target, branch) {
      NotFirst(sha, ms, cs, target, branch, p);
    }
  }

  /** Undo over events.  Take any run from any file system whose edits do not
      interleave.  A rollback to an entry of the branch, if every path still holds
      what its last chosen change left, takes each path with a chosen change back
      to what it held before the first of them and changes no other; in every
      other case it changes nothing. */
  lemma UndoOverEvents(sha: Bytes -> Hash, files: Files, es: seq<Event>, target: string, branch: set<string>, p: Path)
    requires CollisionFree(sha) && Apart(sha, Fresh(files), es, None)
    ensures Undoes(Changes(sha, files, es), Run(sha, Fresh(files), es).files,
                   Run(sha, Fresh(files), es + [Rollback(target, branch, {})]).files, target, branch, p)
  {
    ApartIsInStep(sha, Fresh(files), es, None);
    JournalIsChanges(sha, files, es);
    RunSnoc(sha, Fresh(files), es, Rollback(target, branch, {}));
    RollbackUndoes(sha, Run(sha, Fresh(files), es), Changes(sha, files, es), target, branch, p);
  }

  lemma NotFirst(sha: Bytes -> Hash, ms: seq<Mutation>, cs: seq<Change>, target: string, branch: set<string>, p: Path)
    requires Journals(sha, ms, cs) && forall k :: 0 <= k < |cs| && cs[k].path == p ==> !Chosen(cs[k], target, branch)
    ensures p !in FirstOf(Select(ms, target, branch))
  {
    if p in FirstOf(Select(ms, target, branch)) {
      var k := FirstIndex(ms, target, branch, p);
      ChosenIsSelected(sha, ms, cs, k, target, branch);
      assert false;
    }
  }

  // ---------------------------------------------------------------- what the plan says

  /** The path no longer holds what its last chosen change left there. */
  predicate Disturbed(cs: seq<Change>, files: Files, target: string, branch: set<string>, p: Path) {
    exists k :: 0 <= k < |cs| && IsLast(cs, k, target, branch) && cs[k].path == p && Lookup(files, p) != Some(cs[k].after)
  }

  /** The path does not hold what it held before its first chosen change. */
  predicate Differs(cs: seq<Change>, files: Files, target: string, branch: set<string>, p: Path, before: Option<Bytes>) {
    exists k :: 0 <= k < |cs| && IsFirst(cs, k, target, branch) && cs[k].path == p && before == cs[k].before && Lookup(files, p) != before
  }

  lemma {:induction false} ConflictMembers(sha: Bytes -> Hash, files: Files, sel: seq<Mutation>, ps: seq<Path>, p: Path)
    requires forall q :: q in ps ==> q in LastOf(sel)
    ensures p in Conflicts(sha, files, sel, ps) <==> p in ps && InConflict(sha, files, p, LastOf(sel)[p].after)
  {
    if ps != [] {
      assert ps == ps[..|ps| - 1] + [ps[|ps| - 1]];
      ConflictMembers(sha, files, sel, ps[..|ps| - 1], p);
    }
  }

  lemma EntriesForPath(sha: Bytes -> Hash, files: Files, p: Path, goal: string, expected: string, e: PlanEntry)
    requires e in EntriesFor(sha, files, p, goal, expected)
    ensures e.path == p
  {
  }

  lemma {:induction false} EntryMembers(sha: Bytes -> Hash, files: Files, sel: seq<Mutation>, ps: seq<Path>, e: PlanEntry)
    requires forall q :: q in ps ==> q in LastOf(sel) && q in FirstOf(sel)
    ensures e in Entries(sha, files, sel, ps) <==>
      && e.path in ps && !InConflict(sha, files, e.path, LastOf(sel)[e.path].after)
      && e in EntriesFor(sha, files, e.path, FirstOf(sel)[e.path].before, LastOf(sel)[e.path].after)
  {
    if ps != [] {
      var rest, p := ps[..|ps| - 1], ps[|ps| - 1];
      assert ps == rest + [p];
      EntryMembers(sha, files, sel, rest, e);
      var own := EntriesFor(sha, files, p, FirstOf(sel)[p].before, LastOf(sel)[p].after);
      if e in own {
        EntriesForPath(sha, files, p, FirstOf(sel)[p].before, LastOf(sel)[p].after, e);
      }
    }
  }

  /** What the plan would do to a path: restore content that differs, delete a
      file that was not there, and nothing else. */
  predicate Plans(sha: Bytes -> Hash, e: PlanEntry, files: Files, before: Option<Bytes>) {
    && e.current == Digest(sha, files, e.path) && Lookup(files, e.path) != before
    && (if before.None? then e.action == Delete && e.target == None else e.action == Restore && e.target == Some(sha(before.value)))
  }

  lemma ActiveEntry(sha: Bytes -> Hash, files: Files, p: Path, before: Option<Bytes>, expected: string, e: PlanEntry)
    requires CollisionFree(sha) && e.path == p && e.action != Noop
    ensures e in EntriesFor(sha, files, p, SideRef(sha, before), expected) <==> Plans(sha, e, files, before)
  {
    if before.Some? {
      BlobRefRoundTrip(sha(before.value));
    }
  }

  lemma LastChange(sha: Bytes -> Hash, ms: seq<Mutation>, cs: seq<Change>, target: string, branch: set<string>, p: Path) returns (k: nat)
    requires Journals(sha, ms, cs) && p in LastOf(Select(ms, target, branch))
    ensures k < |cs| && IsLast(cs, k, target, branch) && cs[k].path == p
  {
    k := LastIndex(ms, target, branch, p);
    forall i | 0 <= i < |ms| ensures IsSelected(ms[i], target, branch) <==> Chosen(cs[i], target, branch) {
      ChosenIsSelected(sha, ms, cs, i, target, branch);
    }
  }

  lemma FirstChange(sha: Bytes -> Hash, ms: seq<Mutation>, cs: seq<Change>, target: string, branch: set<string>, p: Path) returns (k: nat)
    requires Journals(sha, ms, cs) && p in FirstOf(Select(ms, target, branch))
    ensures k < |cs| && IsFirst(cs, k, target, branch) && cs[k].path == p
  {
    k := FirstIndex(ms, target, branch, p);
    forall i | 0 <= i < |ms| ensures IsSelected(ms[i], target, branch) <==> Chosen(cs[i], target, branch) {
      ChosenIsSelected(sha, ms, cs, i, target, branch);
    }
  }

  /** Whether a path with a chosen change is in conflict. */
  lemma DisturbedIff(sha: Bytes -> Hash, w: World, cs: seq<Change>, target: string, branch: set<string>, p: Path)
    requires CollisionFree(sha) && WorldOk(sha, w) && Journals(sha, Mutations(w.journal), cs)
    ensures var last := LastOf(Selected(w, target, branch));
      Disturbed(cs, w.files, target, branch, p) <==> p in last && InConflict(sha, w.files, p, last[p].after)
  {
    var ms, last := Mutations(w.journal), LastOf(Selected(w, target, branch));
    SelectedRefs(w, target, branch);
    if Disturbed(cs, w.files, target, branch, p) {
      var k :| 0 <= k < |cs| && IsLast(cs, k, target, branch) && cs[k].path == p && Lookup(w.files, p) != Some(cs[k].after);
      LastIsLast(sha, ms, cs, k, target, branch);
      RefIsContent(sha, w.files, p, Some(cs[k].after));
      ConflictIff(sha, w.blobs, w.files, p, last[p].after);
    }
    if p in last && InConflict(sha, w.files, p, last[p].after) {
      var k := LastChange(sha, ms, cs, target, branch, p);
      LastIsLast(sha, ms, cs, k, target, branch);
      RefIsContent(sha, w.files, p, Some(cs[k].after));
      ConflictIff(sha, w.blobs, w.files, p, last[p].after);
    }
  }

  /** What the plan says of a path, given the changes: a path is in conflict exactly
      when it is disturbed, and an undisturbed one is to be restored or deleted exactly
      when it does not hold what it held before its first chosen change. */
  ghost predicate PlanSays(sha: Bytes -> Hash, plan: Plan, cs: seq<Change>, files: Files, target: string, branch: set<string>, e: PlanEntry) {
    && (e.path in plan.conflicts <==> Disturbed(cs, files, target, branch, e.path))
    && (e.action != Noop ==> (e in plan.paths <==>
         !Disturbed(cs, files, target, branch, e.path) && PlansSome(sha, cs, files, target, branch, e)))
  }

  ghost predicate PlansSome(sha: Bytes -> Hash, cs: seq<Change>, files: Files, target: string, branch: set<string>, e: PlanEntry) {
    exists before :: Differs(cs, files, target, branch, e.path, before) && Plans(sha, e, files, before)
  }

  lemma PlanFollows(sha: Bytes -> Hash, w: World, cs: seq<Change>, target: string, branch: set<string>, e: PlanEntry)
    requires CollisionFree(sha) && WorldOk(sha, w) && Journals(sha, Mutations(w.journal), cs) && target in branch
    ensures PlanSays(sha, ComputePlan(sha, w, target, branch), cs, w.files, target, branch, e)
  {
    var ms, sel, p := Mutations(w.journal), Selected(w, target, branch), e.path;
    PathsAreKeys(sel);
    ConflictMembers(sha, w.files, sel, PathsOf(sel), p);
    EntryMembers(sha, w.files, sel, PathsOf(sel), e);
    DisturbedIff(sha, w, cs, target, branch, p);
    if e.action != Noop {
      if p in FirstOf(sel) {
        var k := FirstChange(sha, ms, cs, target, branch, p);
        FirstIsFirst(sha, ms, cs, k, target, branch);
        ActiveEntry(sha, w.files, p, cs[k].before, LastOf(sel)[p].after, e);
        forall before | Differs(cs, w.files, target, branch, p, before) ensures before == cs[k].before {
          OneFirst(cs, w.files, target, branch, p, before, k);
        }
        assert Plans(sha, e, w.files, cs[k].before) ==> Differs(cs, w.files, target, branch, p, cs[k].before);
      } else {
        forall before ensures !Differs(cs, w.files, target, branch, p, before) {
          NoFirst(sha, ms, cs, w.files, target, branch, p, before);
        }
      }
    }
  }

  lemma OneFirst(cs: seq<Change>, files: Files, target: string, branch: set<string>, p: Path, before: Option<Bytes>, k: nat)
    requires Differs(cs, files, target, branch, p, before) && IsFirst(cs, k, target, branch) && cs[k].path == p
    ensures before == cs[k].before
  {
    var i :| 0 <= i < |cs| && IsFirst(cs, i, target, branch) && cs[i].path == p && before == cs[i].before && Lookup(files, p) != before;
    assert i == k;
  }

  lemma NoFirst(sha: Bytes -> Hash, ms: seq<Mutation>, cs: seq<Change>, files: Files, target: string, branch: set<string>, p: Path, before: Option<Bytes>)
    requires Journals(sha, ms, cs) && p !in FirstOf(Select(ms, target, branch))
    ensures !Differs(cs, files, target, branch, p, before)
  {
    if Differs(cs, files, target, branch, p, before) {
      var i :| 0 <= i < |cs| && IsFirst(cs, i, target, branch) && cs[i].path == p && before == cs[i].before && Lookup(files, p) != before;
      FirstIsFirst(sha, ms, cs, i, target, branch);
      assert false;
    }
  }

  lemma {:induction false} PlannedMembers(es: seq<PlanEntry>, p: Path)
    ensures p in Planned(es) <==> exists e :: e in es && e.action != Noop && e.path == p
  {
    if es != [] {
      PlannedMembers(es[..|es| - 1], p);
      assert es == es[..|es| - 1] + [es[|es| - 1]];
    }
  }

  lemma {:induction false} PlannedAppend(a: seq<PlanEntry>, b: seq<PlanEntry>)
    ensures Planned(a + b) == Planned(a) + Planned(b)
  {
    if b == [] {
      assert a + b == a;
    } else {
      assert (a + b)[..|a + b| - 1] == a + b[..|b| - 1];
      PlannedAppend(a, b[..|b| - 1]);
    }
  }

  lemma PlannedForOne(sha: Bytes -> Hash, files: Files, p: Path, goal: string, expected: string)
    ensures var ps := Planned(EntriesFor(sha, files, p, goal, expected)); ps == [] || ps == [p]
  {
    var es := EntriesFor(sha, files, p, goal, expected);
    if |es| == 2 {
      assert es[..1] == [es[0]] && es[..1][..0] == [] && Planned(es[..1]) == [];
    } else if |es| == 1 {
      assert es[..0] == [];
    }
  }

  predicate NoRepeat(ps: seq<Path>) {
    forall i, j :: 0 <= i < j < |ps| ==> ps[i] != ps[j]
  }

  lemma OneMore(a: seq<Path>, b: seq<Path>, rest: seq<Path>, p: Path)
    requires NoRepeat(a) && (b == [] || b == [p]) && p !in rest && forall q :: q in a ==> q in rest
    ensures NoRepeat(a + b) && forall q :: q in a + b ==> q in rest + [p]
  {
  }

  /** No path is planned twice. */
  lemma {:induction false} PlannedOnce(sha: Bytes -> Hash, files: Files, sel: seq<Mutation>, ps: seq<Path>)
    requires forall q :: q in ps ==> q in LastOf(sel) && q in FirstOf(sel)
    requires NoRepeat(ps)
    ensures var once := Planned(Entries(sha, files, sel, ps)); NoRepeat(once) && forall q :: q in once ==> q in ps
  {
    if ps != [] {
      var rest, p := ps[..|ps| - 1], ps[|ps| - 1];
      assert ps == rest + [p] && p in ps && p !in rest;
      PlannedOnce(sha, files, sel, rest);
      var a := Entries(sha, files, sel, rest);
      if InConflict(sha, files, p, LastOf(sel)[p].after) {
        assert Entries(sha, files, sel, ps) == a + [] == a;
      } else {
        var b := EntriesFor(sha, files, p, FirstOf(sel)[p].before, LastOf(sel)[p].after);
        assert Entries(sha, files, sel, ps) == a + b;
        PlannedForOne(sha, files, p, FirstOf(sel)[p].before, LastOf(sel)[p].after);
        PlannedAppend(a, b);
        OneMore(Planned(a), Planned(b), rest, p);
      }
    }
  }

  /** The plan changes this path. */
  ghost predicate Acts(plan: Plan, p: Path) {
    exists a :: a in plan.paths && a.action != Noop && a.path == p
  }

  ghost predicate ListsWhatActs(ps: seq<Path>, plan: Plan) {
    NoRepeat(ps) && forall p :: p in ps <==> Acts(plan, p)
  }

  /** A transaction is recorded with exactly the paths the plan changes. */
  ghost predicate Records(was: seq<Line>, now: seq<Line>, plan: Plan) {
    exists ps :: ListsWhatActs(ps, plan) && now == was + [TxLine(Prepared, ps), TxLine(Committed, ps)]
  }

  lemma TransactionLists(sha: Bytes -> Hash, w: World, target: string, branch: set<string>, plan: Plan)
    requires CollisionFree(sha) && WorldOk(sha, w) && plan == ComputePlan(sha, w, target, branch) && plan.eligible
    ensures Records(w.journal, DoRollback(sha, w, target, branch, {}).journal, plan)
  {
    var ps, sel := Planned(plan.paths), Selected(w, target, branch);
    ExecuteRestores(sha, w, target, branch, {});
    var after := DoRollback(sha, w, target, branch, {}).journal;
    assert after == w.journal + [TxLine(Prepared, ps), TxLine(Committed, ps)];
    PathsAreKeys(sel);
    PlannedOnce(sha, w.files, sel, PathsOf(sel));
    forall p ensures p in ps <==> Acts(plan, p) {
      PlannedMembers(plan.paths, p);
    }
    assert ListsWhatActs(ps, plan);
  }

  /** The plan over events, and the transaction that the rollback records: prepared
      and committed with exactly the paths that it changes, if it may go ahead, which
      is when no path is disturbed and some path differs. */
  lemma PlanOverEvents(sha: Bytes -> Hash, files: Files, es: seq<Event>, target: string, branch: set<string>, e: PlanEntry, w: World, plan: Plan)
    requires CollisionFree(sha) && Apart(sha, Fresh(files), es, None)
    requires w == Run(sha, Fresh(files), es) && plan == ComputePlan(sha, w, target, branch)
    ensures target in branch ==> PlanSays(sha, plan, Changes(sha, files, es), w.files, target, branch, e)
    ensures plan.eligible <==> target in branch && plan.conflicts == [] && exists p :: Acts(plan, p)
    ensures var after := DoRollback(sha, w, target, branch, {}).journal;
      if plan.eligible then Records(w.journal, after, plan) else after == w.journal
  {
    ApartIsInStep(sha, Fresh(files), es, None);
    JournalIsChanges(sha, files, es);
    if target in branch {
      PlanFollows(sha, w, Changes(sha, files, es), target, branch, e);
    }
    assert forall a :: a in plan.paths && a.action != Noop ==> Acts(plan, a.path);
    if plan.eligible {
      TransactionLists(sha, w, target, branch, plan);
    }
  }
}
