/** The order of the background queue over whole runs of calls to the runtime:
    who starts, who may overtake whom, and how long a queued record waits.
 */
module SchedulerOrder {
  import opened Subagents

  /** The calls that reach the runtime: records are made, submitted, end their
      run and settle their promise; signals fire; callers promote, stop and drop
      records; finish handlers run. */
  datatype Call =
    | Create(path: Path)
    | Submit(id: nat)
    | End(id: nat, status: Terminal)
    | Settle(id: nat)
    | Fire(id: nat)
    | Promote(id: nat)
    | Stop(id: nat)
    | Drop(id: nat)
    | Handle(id: nat)

  function Apply(rt: Runtime, c: Call): Runtime {
    match c
    case Create(path) => CreateRecord(rt, path)
    case Submit(id) => Schedule(rt, id)
    case End(id, status) => Finish(rt, id, status)
    case Settle(id) => ReleaseSlot(rt, id)
    case Fire(id) => RequestCancel(rt, id)
    case Promote(id) => Prioritize(rt, id)
    case Stop(id) => Cancel(rt, id)
    case Drop(id) => Discard(rt, id)
    case Handle(id) => rt.(inflight := rt.inflight - {id})
  }

  /** A record is submitted once, and a promise settles after its run has finished. */
  predicate Possible(rt: Runtime, c: Call) {
    match c
    case Submit(id) => id in rt.records && id !in rt.running && id !in rt.queue
    case End(id, _) => id in rt.running
    case Settle(id) => id in rt.running && !Unfinished(rt, id)
    case _ => true
  }

  function After(rt: Runtime, cs: seq<Call>): Runtime
    decreases |cs|
  {
    if cs == [] then rt else After(Apply(rt, cs[0]), cs[1..])
  }

  predicate AllPossible(rt: Runtime, cs: seq<Call>)
    decreases |cs|
  {
    cs == [] || (Possible(rt, cs[0]) && AllPossible(Apply(rt, cs[0]), cs[1..]))
  }

  lemma ApplyKeeps(rt: Runtime, c: Call)
    requires RuntimeOk(rt) && Possible(rt, c)
    ensures RuntimeOk(Apply(rt, c))
  {
    match c
    case Create(path) => CreateKeeps(rt, path);
    case Submit(id) => ScheduleKeeps(rt, id);
    case End(id, status) => FinishKeeps(rt, id, status);
    case Settle(id) => ReleaseKeeps(rt, id);
    case Fire(id) => RequestCancelKeeps(rt, id);
    case Promote(id) => PrioritizeKeeps(rt, id);
    case Stop(id) => CancelKeeps(rt, id);
    case Drop(id) => DiscardKeeps(rt, id);
    case Handle(_) =>
  }

  // ---------------------------------------------------------------- which record starts

  /** Neither cancelled nor finished. */
  predicate Wanted(rt: Runtime, id: nat) {
    Unfinished(rt, id) && !rt.records[id].cancelRequested
  }

  /** The place of the first queued record that is still wanted, or the length of the queue. */
  function FirstWanted(rt: Runtime, q: seq<nat>): (k: nat)
    ensures k <= |q| && (k < |q| ==> Wanted(rt, q[k])) && forall i :: 0 <= i < k ==> !Wanted(rt, q[i])
  {
    if q == [] || Wanted(rt, q[0]) then 0 else 1 + FirstWanted(rt, q[1..])
  }

  lemma {:induction false} StartNextTakesFirstWanted(rt: Runtime)
    requires rt.runningCount < MAX_BACKGROUND_CONCURRENCY
    ensures var k := FirstWanted(rt, rt.queue);
      StartNext(rt) == if k == |rt.queue| then rt.(queue := [])
        else rt.(queue := rt.queue[k + 1..], running := rt.running + {rt.queue[k]}, runningCount := rt.runningCount + 1)
    decreases |rt.queue|
  {
    if rt.queue != [] && !Wanted(rt, rt.queue[0]) {
      var rest := rt.(queue := rt.queue[1..]);
      StartNextTakesFirstWanted(rest);
      SameWanted(rt, rest, rest.queue);
      var k := FirstWanted(rest, rest.queue);
      assert k < |rest.queue| ==> rest.queue[k + 1..] == rt.queue[k + 2..];
    }
  }

  lemma {:induction false} SameWanted(a: Runtime, b: Runtime, q: seq<nat>)
    requires a.records == b.records
    ensures FirstWanted(a, q) == FirstWanted(b, q)
  {
    if q != [] {
      SameWanted(a, b, q[1..]);
    }
  }

  /** A slot given back goes to the first queued record still wanted; the ones in
      front of it leave the queue with it, the ones behind it keep their places. */
  lemma ReleaseStartsFirstWanted(rt: Runtime, id: nat)
    requires RuntimeOk(rt) && id in rt.running
    ensures var k, t := FirstWanted(rt, rt.queue), ReleaseSlot(rt, id);
      && t.records == rt.records
      && t.queue == (if k == |rt.queue| then [] else rt.queue[k + 1..])
      && t.running == (rt.running - {id}) + (if k == |rt.queue| then {} else {rt.queue[k]})
  {
    var freed := rt.(running := rt.running - {id}, runningCount := rt.runningCount - 1);
    StartNextTakesFirstWanted(freed);
    SameWanted(rt, freed, rt.queue);
  }

  // ---------------------------------------------------------------- nobody overtakes

  /** a is queued, and b stands behind it or is not queued at all. */
  predicate Before(q: seq<nat>, a: nat, b: nat) {
    a != b && IndexOf(q, a) < |q| && IndexOf(q, a) < IndexOf(q, b)
  }

  lemma {:induction false} IndexOfAppend(q: seq<nat>, x: nat, id: nat)
    ensures id in q ==> IndexOf(q + [x], id) == IndexOf(q, id)
    ensures id !in q ==> IndexOf(q + [x], id) == if x == id then |q| else |q| + 1
  {
    if q == [] {
      assert [] + [x] == [x] && [x][1..] == [];
    } else {
      assert (q + [x])[1..] == q[1..] + [x];
      IndexOfAppend(q[1..], x, id);
    }
  }

  lemma {:induction false} IndexOfSuffix(q: seq<nat>, n: nat, id: nat)
    requires n <= |q| && id !in q[..n]
    ensures IndexOf(q, id) == n + IndexOf(q[n..], id)
  {
    if n > 0 {
      assert q[0] in q[..n] && q[..n][1..] == q[1..][..n - 1] && q[1..][n - 1..] == q[n..];
      assert forall x :: x in q[1..][..n - 1] ==> x in q[..n];
      IndexOfSuffix(q[1..], n - 1, id);
    } else {
      assert q[0..] == q;
    }
  }

  /** Taking x out moves up those behind it and no one else. */
  lemma RemovedIndex(q: seq<nat>, x: nat, id: nat)
    requires Distinct(q) && x in q && id != x
    ensures IndexOf(Removed(q, x), id) == if IndexOf(q, id) < IndexOf(q, x) then IndexOf(q, id) else IndexOf(q, id) - 1
  {
    RemovedMembers(q, x);
    if id in q {
      RemovedAt(q, IndexOf(q, x), IndexOf(q, id));
      var i := IndexOf(q, id);
      UniqueIndex(Removed(q, x), id, if i < IndexOf(q, x) then i else i - 1);
    }
  }

  lemma RemovedAt(q: seq<nat>, k: nat, i: nat)
    requires k < |q| && i < |q| && i != k
    ensures var r := q[..k] + q[k + 1..]; r[if i < k then i else i - 1] == q[i]
  {
  }

  lemma UniqueIndex(q: seq<nat>, id: nat, i: nat)
    requires Distinct(q) && i < |q| && q[i] == id
    ensures IndexOf(q, id) == i
  {
  }

  lemma ConsIndex(x: nat, q: seq<nat>, id: nat)
    ensures IndexOf([x] + q, id) == if x == id then 0 else 1 + IndexOf(q, id)
  {
    assert ([x] + q)[1..] == q;
  }

  /** What became of a queue entry that stays: its place, and the slot it did not get. */
  lemma PromoteBefore(q: seq<nat>, x: nat, a: nat, b: nat)
    requires Distinct(q) && x in q && Before(q, a, b) && x != b
    ensures Before([x] + Removed(q, x), a, b)
  {
    ConsIndex(x, Removed(q, x), a);
    ConsIndex(x, Removed(q, x), b);
    RemovedIndex(q, x, b);
    if x != a {
      RemovedIndex(q, x, a);
    }
  }

  lemma StopBefore(q: seq<nat>, x: nat, a: nat, b: nat)
    requires Distinct(q) && Before(q, a, b) && x != a
    ensures Before(Removed(q, x), a, b)
  {
    if x in q {
      RemovedIndex(q, x, a);
      RemovedMembers(q, x);
      if x != b {
        RemovedIndex(q, x, b);
      }
    }
  }

  lemma SuffixBefore(q: seq<nat>, n: nat, a: nat, b: nat)
    requires Distinct(q) && Before(q, a, b) && n <= |q| && a in q[n..]
    ensures b !in q[..n] && Before(q[n..], a, b)
  {
    SuffixIndex(q, n, a);
    assert forall i :: 0 <= i < n ==> q[i] != b;
    IndexOfSuffix(q, n, b);
  }

  lemma SuffixIndex(q: seq<nat>, n: nat, a: nat)
    requires Distinct(q) && n <= |q| && a in q[n..]
    ensures a !in q[..n] && IndexOf(q, a) == n + IndexOf(q[n..], a) && a in q
  {
    var j :| 0 <= j < |q[n..]| && q[n..][j] == a;
    UniqueIndex(q, a, n + j);
    IndexOfSuffix(q, n, a);
  }

  lemma SettleBefore(rt: Runtime, id: nat, a: nat, b: nat)
    requires RuntimeOk(rt) && id in rt.running && Before(rt.queue, a, b) && a in ReleaseSlot(rt, id).queue
    ensures b !in ReleaseSlot(rt, id).running - rt.running && Before(ReleaseSlot(rt, id).queue, a, b)
  {
    ReleaseStartsFirstWanted(rt, id);
    var k := FirstWanted(rt, rt.queue);
    SuffixBefore(rt.queue, k + 1, a, b);
    assert rt.queue[k] in rt.queue[..k + 1];
  }

  lemma SubmitBefore(rt: Runtime, id: nat, a: nat, b: nat)
    requires RuntimeOk(rt) && Before(rt.queue, a, b)
    ensures Schedule(rt, id).running == rt.running && Before(Schedule(rt, id).queue, a, b)
  {
    IndexOfAppend(rt.queue, id, a);
    IndexOfAppend(rt.queue, id, b);
  }

  /** One call: while a stays queued, b does not start and stays behind it, unless b is promoted. */
  lemma NoOvertakingStep(rt: Runtime, c: Call, a: nat, b: nat)
    requires RuntimeOk(rt) && Possible(rt, c) && Before(rt.queue, a, b) && a in Apply(rt, c).queue && c != Promote(b)
    ensures b !in Apply(rt, c).running - rt.running && Before(Apply(rt, c).queue, a, b)
  {
    match c
    case Submit(id) => SubmitBefore(rt, id, a, b);
    case Settle(id) => SettleBefore(rt, id, a, b);
    case Promote(id) =>
      if id in rt.queue {
        PromoteBefore(rt.queue, id, a, b);
      }
    case Stop(id) =>
      if Unfinished(rt, id) && id in rt.queue {
        RemovedMembers(rt.queue, id);
        StopBefore(rt.queue, id, a, b);
      }
    case _ =>
  }

  /** a is queued before the first and after every call. */
  predicate StaysQueued(rt: Runtime, cs: seq<Call>, a: nat)
    decreases |cs|
  {
    a in rt.queue && (cs == [] || StaysQueued(Apply(rt, cs[0]), cs[1..], a))
  }

  /** The records that get a slot during a run. */
  function StartedDuring(rt: Runtime, cs: seq<Call>): set<nat>
    decreases |cs|
  {
    if cs == [] then {} else (Apply(rt, cs[0]).running - rt.running) + StartedDuring(Apply(rt, cs[0]), cs[1..])
  }

  /** First come, first served: as long as a waits, no record that stood behind it
      or was not queued yet gets a slot, unless it is promoted. */
  lemma {:induction false} FirstComeFirstServed(rt: Runtime, cs: seq<Call>, a: nat, b: nat)
    requires RuntimeOk(rt) && AllPossible(rt, cs) && StaysQueued(rt, cs, a) && Before(rt.queue, a, b) && Promote(b) !in cs
    ensures b !in StartedDuring(rt, cs) && Before(After(rt, cs).queue, a, b)
    decreases |cs|
  {
    if cs != [] {
      assert cs[0] in cs;
      NoOvertakingStep(rt, cs[0], a, b);
      ApplyKeeps(rt, cs[0]);
      FirstComeFirstServed(Apply(rt, cs[0]), cs[1..], a, b);
    }
  }

  // ---------------------------------------------------------------- how long a record waits

  /** The call promotes another record past this one. */
  predicate Passes(rt: Runtime, c: Call, id: nat) {
    c.Promote? && c.id in rt.queue && c.id != id && IndexOf(rt.queue, id) < IndexOf(rt.queue, c.id)
  }

  lemma SettleMovesUp(rt: Runtime, x: nat, id: nat)
    requires RuntimeOk(rt) && x in rt.running && id in rt.queue && id in ReleaseSlot(rt, x).queue
    ensures IndexOf(ReleaseSlot(rt, x).queue, id) + 1 <= IndexOf(rt.queue, id)
  {
    ReleaseStartsFirstWanted(rt, x);
    SuffixIndex(rt.queue, FirstWanted(rt, rt.queue) + 1, id);
  }

  lemma MovesUp(rt: Runtime, c: Call, id: nat)
    requires RuntimeOk(rt) && Possible(rt, c) && id in rt.queue && id in Apply(rt, c).queue
    ensures IndexOf(Apply(rt, c).queue, id) + (if c.Settle? then 1 else 0) <= IndexOf(rt.queue, id) + (if Passes(rt, c, id) then 1 else 0)
  {
    match c
    case Submit(x) => IndexOfAppend(rt.queue, x, id);
    case Settle(x) => SettleMovesUp(rt, x, id);
    case Promote(x) =>
      if x in rt.queue {
        ConsIndex(x, Removed(rt.queue, x), id);
        if x != id {
          RemovedIndex(rt.queue, x, id);
        }
      }
    case Stop(x) =>
      if Unfinished(rt, x) && x in rt.queue {
        RemovedMembers(rt.queue, x);
        RemovedIndex(rt.queue, x, id);
      }
    case _ =>
  }

  function Settles(cs: seq<Call>): nat {
    if cs == [] then 0 else (if cs[0].Settle? then 1 else 0) + Settles(cs[1..])
  }

  function TimesPassed(rt: Runtime, cs: seq<Call>, id: nat): nat
    decreases |cs|
  {
    if cs == [] then 0 else (if Passes(rt, cs[0], id) then 1 else 0) + TimesPassed(Apply(rt, cs[0]), cs[1..], id)
  }

  /** Bounded waiting: while a record stays queued, no more slots are given back
      than there were records ahead of it, plus one for each that was promoted past it. */
  lemma {:induction false} QueuedNotForLong(rt: Runtime, cs: seq<Call>, id: nat)
    requires RuntimeOk(rt) && AllPossible(rt, cs) && StaysQueued(rt, cs, id)
    ensures Settles(cs) + IndexOf(After(rt, cs).queue, id) <= IndexOf(rt.queue, id) + TimesPassed(rt, cs, id)
    decreases |cs|
  {
    if cs != [] {
      MovesUp(rt, cs[0], id);
      ApplyKeeps(rt, cs[0]);
      QueuedNotForLong(Apply(rt, cs[0]), cs[1..], id);
    }
  }

  lemma InSuffix(q: seq<nat>, k: nat, i: nat)
    requires i < |q| && k <= |q|
    ensures k < i ==> q[i] in q[k + 1..]
  {
    if k < i {
      assert q[k + 1..][i - k - 1] == q[i];
    }
  }

  /** A wanted record leaves the queue only for a slot or because it is stopped. */
  lemma LeavesForASlot(rt: Runtime, c: Call, id: nat)
    requires RuntimeOk(rt) && Possible(rt, c) && id in rt.queue && Wanted(rt, id) && id !in Apply(rt, c).queue
    ensures c == Stop(id) || (c.Settle? && id in Apply(rt, c).running && IndexOf(rt.queue, id) == FirstWanted(rt, rt.queue))
  {
    match c
    case Settle(x) =>
      ReleaseStartsFirstWanted(rt, x);
      InSuffix(rt.queue, FirstWanted(rt, rt.queue), IndexOf(rt.queue, id));
    case Promote(x) => PrioritizeScheduler(rt, x);
    case Stop(x) => RemovedMembers(rt.queue, x);
    case _ =>
  }
}
