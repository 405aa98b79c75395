/** The eval host-call gate: a FIFO gate in which parallel jobs share a bounded
    number of slots and a sequential job is a full barrier.

    Every stretch of the program between two suspension points is one atomic
    step, so a run of the gate is a sequence of `Event`s.  `Step` is the value-level
    specification; the class `Gate` does the same work in place and is proved
    against it.  A job is named by its submission number.
 */
module HostCallGate {

  datatype Mode = Parallel | Sequential

  /** A job still in the queue.  An aborted one keeps its place until it reaches the front. */
  datatype Queued = Queued(id: nat, mode: Mode, aborted: bool)

  /** A started job whose host work has not stopped yet; it holds a slot. */
  datatype Slot = Slot(id: nat, mode: Mode, callerSettled: bool)

  /** The gate's fields, plus what an observer of the run has seen:
      which jobs hold a slot, the order of starts, the order in which callers
      were settled, and the jobs withdrawn by an abort before they started. */
  datatype State = State(
    limit: nat,
    queue: seq<Queued>,
    parallelRunning: int,
    sequentialRunning: bool,
    running: seq<Slot>,
    started: seq<nat>,
    settled: seq<nat>,
    withdrawn: set<nat>,
    next: nat)

  datatype Event =
    | Submit(mode: Mode, signalAborted: bool)
    | Abort(id: nat)
    | WorkSettled(id: nat)

  // ---------------------------------------------------------------- specification

  function Init(limit: nat): State {
    State(limit, [], 0, false, [], [], [], {}, 0)
  }

  function MarkAborted(q: seq<Queued>, id: nat): seq<Queued> {
    if q == [] then []
    else if q[0].id == id then [q[0].(aborted := true)] + q[1..]
    else [q[0]] + MarkAborted(q[1..], id)
  }

  predicate LiveIn(q: seq<Queued>, id: nat) {
    exists i :: 0 <= i < |q| && q[i].id == id && !q[i].aborted
  }

  /** The slot of a running job, as an index; |rs| when it holds none. */
  function SlotOf(rs: seq<Slot>, id: nat): (k: nat)
    ensures k <= |rs|
    ensures k < |rs| ==> rs[k].id == id
    ensures k == |rs| ==> forall i :: 0 <= i < |rs| ==> rs[i].id != id
  {
    if rs == [] then 0 else if rs[0].id == id then 0 else 1 + SlotOf(rs[1..], id)
  }

  /** Move the front job into a slot. */
  function StartFront(s: State): State
    requires s.queue != []
  {
    var j := s.queue[0];
    s.(queue := s.queue[1..],
       parallelRunning := if j.mode.Parallel? then s.parallelRunning + 1 else s.parallelRunning,
       sequentialRunning := s.sequentialRunning || j.mode.Sequential?,
       running := s.running + [Slot(j.id, j.mode, false)],
       started := s.started + [j.id])
  }

  function Pump(s: State): State
    decreases |s.queue|
  {
    if s.sequentialRunning || s.queue == [] then s
    else if s.queue[0].aborted then Pump(s.(queue := s.queue[1..]))
    else if s.queue[0].mode.Sequential? && s.parallelRunning > 0 then s
    else if s.queue[0].mode.Parallel? && s.parallelRunning >= s.limit then s
    else Pump(StartFront(s))
  }

  function DoSubmit(s: State, mode: Mode, signalAborted: bool): State {
    if signalAborted
    then s.(next := s.next + 1, settled := s.settled + [s.next], withdrawn := s.withdrawn + {s.next})
    else Pump(Enqueued(s, mode))
  }

  function DoAbort(s: State, id: nat): State {
    var k := SlotOf(s.running, id);
    if LiveIn(s.queue, id) then
      Pump(Withdrawn(s, id))
    else if k < |s.running| && !s.running[k].callerSettled then
      s.(running := s.running[k := s.running[k].(callerSettled := true)],
         settled := s.settled + [id])
    else s
  }

  /** The counters after a slot is given back. */
  function DoWorkSettled(s: State, id: nat): State {
    var k := SlotOf(s.running, id);
    if k == |s.running| then s
    else Pump(Released(s, k))
  }

  function Step(s: State, e: Event): State {
    match e
    case Submit(mode, signalAborted) => DoSubmit(s, mode, signalAborted)
    case Abort(id) => DoAbort(s, id)
    case WorkSettled(id) => DoWorkSettled(s, id)
  }

  function Run(s: State, es: seq<Event>): State
    decreases |es|
  {
    if es == [] then s else Run(Step(s, es[0]), es[1..])
  }

  // ---------------------------------------------------------------- invariants

  function LiveIds(q: seq<Queued>): seq<nat> {
    if q == [] then []
    else if q[0].aborted then LiveIds(q[1..])
    else [q[0].id] + LiveIds(q[1..])
  }

  /** The callers of started jobs that have not been settled. */
  function Unsettled(rs: seq<Slot>): seq<nat> {
    if rs == [] then []
    else if rs[0].callerSettled then Unsettled(rs[1..])
    else [rs[0].id] + Unsettled(rs[1..])
  }

  function Without(ids: seq<nat>, w: set<nat>): seq<nat> {
    if ids == [] then []
    else if ids[0] in w then Without(ids[1..], w)
    else [ids[0]] + Without(ids[1..], w)
  }

  function Range(n: nat): seq<nat> {
    seq(n, i => i)
  }

  /** A sequential job runs alone; otherwise every slot is a parallel one, and
      the counter that guards the limit counts live work exactly. */
  ghost predicate Barrier(s: State) {
    && 0 < s.limit
    && s.parallelRunning <= s.limit
    && if s.sequentialRunning
       then s.parallelRunning == 0 && |s.running| == 1 && s.running[0].mode.Sequential?
       else |s.running| == s.parallelRunning && forall i :: 0 <= i < |s.running| ==> s.running[i].mode.Parallel?
  }

  /** Starts so far followed by the waiting jobs are the submissions in order,
      less the ones withdrawn before they started. */
  ghost predicate InOrder(s: State) {
    && (forall id :: id in s.withdrawn ==> id < s.next)
    && s.started + LiveIds(s.queue) == Without(Range(s.next), s.withdrawn)
  }

  /** Every submitted job is waiting, running for a caller, or settled, and only one of these, once. */
  ghost predicate SettledOnce(s: State) {
    multiset(s.settled) + multiset(LiveIds(s.queue)) + multiset(Unsettled(s.running)) == multiset(Range(s.next))
  }

  ghost predicate SlotsAreStarted(s: State) {
    forall i :: 0 <= i < |s.running| ==> s.running[i].id in s.started
  }

  ghost predicate QueueOrdered(s: State) {
    && (forall i, j :: 0 <= i < j < |s.queue| ==> s.queue[i].id < s.queue[j].id)
    && (forall i :: 0 <= i < |s.queue| ==> s.queue[i].id < s.next)
  }

  /** The first waiting job is held back only by a barrier in front of it, a
      full house, or - if it is itself a barrier - by live parallel work. */
  ghost predicate Blocked(s: State) {
    forall i :: 0 <= i < |s.queue| && !s.queue[i].aborted && (forall j :: 0 <= j < i ==> s.queue[j].aborted) ==>
      || s.sequentialRunning
      || (s.queue[i].mode.Parallel? && s.parallelRunning == s.limit)
      || (s.queue[i].mode.Sequential? && s.parallelRunning > 0)
  }

  /** What holds even between an event and the pump that follows it. */
  ghost predicate Steady(s: State) {
    Barrier(s) && InOrder(s) && SlotsAreStarted(s) && QueueOrdered(s)
  }

  ghost predicate Valid(s: State) {
    Steady(s) && Blocked(s)
  }

  // ---------------------------------------------------------------- sequence facts

  lemma {:induction false} LiveIdsAppend(a: seq<Queued>, b: seq<Queued>)
    ensures LiveIds(a + b) == LiveIds(a) + LiveIds(b)
  {
    if a == [] {
      assert a + b == b;
    } else {
      assert (a + b)[1..] == a[1..] + b;
      LiveIdsAppend(a[1..], b);
    }
  }

  lemma {:induction false} UnsettledAppend(a: seq<Slot>, b: seq<Slot>)
    ensures Unsettled(a + b) == Unsettled(a) + Unsettled(b)
  {
    if a == [] {
      assert a + b == b;
    } else {
      assert (a + b)[1..] == a[1..] + b;
      UnsettledAppend(a[1..], b);
    }
  }

  lemma {:induction false} WithoutAppend(a: seq<nat>, b: seq<nat>, w: set<nat>)
    ensures Without(a + b, w) == Without(a, w) + Without(b, w)
  {
    if a == [] {
      assert a + b == b;
    } else {
      assert (a + b)[1..] == a[1..] + b;
      WithoutAppend(a[1..], b, w);
    }
  }

  lemma {:induction false} WithoutTwice(a: seq<nat>, w: set<nat>, id: nat)
    ensures Without(a, w + {id}) == Without(Without(a, w), {id})
  {
    if a != [] {
      WithoutTwice(a[1..], w, id);
    }
  }

  lemma {:induction false} WithoutMember(a: seq<nat>, w: set<nat>, x: nat)
    ensures x in Without(a, w) <==> x in a && x !in w
  {
    if a != [] {
      WithoutMember(a[1..], w, x);
    }
  }

  lemma {:induction false} WithoutNothing(a: seq<nat>, w: set<nat>)
    requires forall x :: x in w ==> x !in a
    ensures Without(a, w) == a
  {
    if a != [] {
      WithoutNothing(a[1..], w);
    }
  }

  lemma {:induction false} WithoutStaysDistinct(a: seq<nat>, w: set<nat>)
    requires forall i, j :: 0 <= i < j < |a| ==> a[i] < a[j]
    ensures forall i, j :: 0 <= i < j < |Without(a, w)| ==> Without(a, w)[i] < Without(a, w)[j]
  {
    if a != [] {
      WithoutStaysDistinct(a[1..], w);
      forall x | x in Without(a[1..], w) ensures a[0] < x {
        WithoutMember(a[1..], w, x);
      }
      if a[0] !in w {
        var r := Without(a[1..], w);
        assert Without(a, w) == [a[0]] + r;
        assert forall j :: 0 <= j < |r| ==> r[j] in r;
      }
    }
  }

  lemma RangeGrows(n: nat)
    ensures Range(n + 1) == Range(n) + [n]
  {
  }

  lemma {:induction false} LiveIdsMember(q: seq<Queued>, id: nat)
    ensures LiveIn(q, id) <==> id in LiveIds(q)
  {
    if q != [] {
      LiveIdsMember(q[1..], id);
      if LiveIn(q, id) {
        var i :| 0 <= i < |q| && q[i].id == id && !q[i].aborted;
        assert i > 0 ==> q[1..][i - 1] == q[i];
      }
      if LiveIn(q[1..], id) {
        var i :| 0 <= i < |q[1..]| && q[1..][i].id == id && !q[1..][i].aborted;
        assert q[i + 1] == q[1..][i];
      }
    }
  }

  /** Withdrawing one live job takes its id, and no other, out of the waiting line. */
  lemma {:induction false} MarkAbortedRemoves(q: seq<Queued>, id: nat)
    requires LiveIn(q, id)
    requires forall i, j :: 0 <= i < j < |q| ==> q[i].id != q[j].id
    ensures LiveIds(MarkAborted(q, id)) == Without(LiveIds(q), {id})
  {
    LiveIdsMember(q, id);
    if q[0].id == id {
      var i :| 0 <= i < |q| && q[i].id == id && !q[i].aborted;
      assert i == 0;
      var q' := [q[0].(aborted := true)] + q[1..];
      assert q'[1..] == q[1..];
      LiveIdsMember(q[1..], id);
      assert id !in LiveIds(q[1..]);
      WithoutNothing(LiveIds(q[1..]), {id});
    } else {
      LiveIdsMember(q[1..], id);
      MarkAbortedRemoves(q[1..], id);
      var q' := [q[0]] + MarkAborted(q[1..], id);
      assert q'[1..] == MarkAborted(q[1..], id);
    }
  }

  /** Taking out an id that occurs once takes out one occurrence. */
  lemma {:induction false} WithoutOne(ids: seq<nat>, id: nat)
    requires id in ids && forall i, j :: 0 <= i < j < |ids| ==> ids[i] < ids[j]
    ensures multiset(Without(ids, {id})) + multiset{id} == multiset(ids)
  {
    assert ids == [ids[0]] + ids[1..];
    if ids[0] == id {
      WithoutNothing(ids[1..], {id});
    } else {
      WithoutOne(ids[1..], id);
    }
  }

  // ---------------------------------------------------------------- every step keeps the invariant

  lemma DropAbortedKeeps(s: State)
    requires Steady(s) && s.queue != [] && s.queue[0].aborted
    ensures Steady(s.(queue := s.queue[1..]))
  {
  }

  lemma StartFrontKeeps(s: State)
    requires Steady(s) && s.queue != [] && !s.queue[0].aborted && !s.sequentialRunning
    requires if s.queue[0].mode.Sequential? then s.parallelRunning == 0 else s.parallelRunning < s.limit
    ensures Steady(StartFront(s))
    ensures LiveIds(s.queue) == [s.queue[0].id] + LiveIds(StartFront(s).queue)
  {
    var t := StartFront(s);
    var id := s.queue[0].id;
    assert t.started + LiveIds(t.queue) == s.started + LiveIds(s.queue);
    assert SlotsAreStarted(t);
    assert QueueOrdered(t);
    assert Barrier(t);
  }

  /** Pumping keeps the barrier and the order, and stops only where the front job must wait. */
  lemma {:induction false} PumpKeeps(s: State)
    requires Steady(s)
    ensures Valid(Pump(s))
    decreases |s.queue|
  {
    if s.sequentialRunning || s.queue == [] {
    } else if s.queue[0].aborted {
      DropAbortedKeeps(s);
      PumpKeeps(s.(queue := s.queue[1..]));
    } else if s.queue[0].mode.Sequential? && s.parallelRunning > 0 {
    } else if s.queue[0].mode.Parallel? && s.parallelRunning >= s.limit {
    } else {
      StartFrontKeeps(s);
      PumpKeeps(StartFront(s));
    }
  }

  /** Pumping moves jobs from the front of the waiting line into slots and loses none. */
  lemma {:induction false} PumpMoves(s: State)
    ensures Pump(s).limit == s.limit && Pump(s).next == s.next
    ensures |LiveIds(Pump(s).queue)| <= |LiveIds(s.queue)|
    ensures LiveIds(Pump(s).queue) == LiveIds(s.queue)[|LiveIds(s.queue)| - |LiveIds(Pump(s).queue)|..]
    ensures |Pump(s).running| + |LiveIds(Pump(s).queue)| == |s.running| + |LiveIds(s.queue)|
    decreases |s.queue|
  {
    if s.sequentialRunning || s.queue == [] {
    } else if s.queue[0].aborted {
      PumpMoves(s.(queue := s.queue[1..]));
    } else if s.queue[0].mode.Sequential? && s.parallelRunning > 0 {
    } else if s.queue[0].mode.Parallel? && s.parallelRunning >= s.limit {
    } else {
      var t := StartFront(s);
      PumpMoves(t);
      assert Pump(s) == Pump(t);
      assert LiveIds(s.queue) == [s.queue[0].id] + LiveIds(t.queue);
      SuffixBehind(s.queue[0].id, LiveIds(t.queue), |LiveIds(Pump(t).queue)|);
    }
  }

  lemma SuffixBehind(x: nat, a: seq<nat>, n: nat)
    requires n <= |a|
    ensures ([x] + a)[|a| + 1 - n..] == a[|a| - n..]
  {
  }

  /** A waiting job has not started, and starts are distinct. */
  lemma WaitingNotStarted(s: State, id: nat)
    requires InOrder(s) && id in LiveIds(s.queue)
    ensures id !in s.started
  {
    var all := s.started + LiveIds(s.queue);
    WithoutStaysDistinct(Range(s.next), s.withdrawn);
    var j :| 0 <= j < |LiveIds(s.queue)| && LiveIds(s.queue)[j] == id;
    assert all[|s.started| + j] == id;
    assert forall i :: 0 <= i < |s.started| ==> s.started[i] == all[i] < id;
  }

  /** The state right after a job joined the queue. */
  function Enqueued(s: State, mode: Mode): State {
    s.(next := s.next + 1, queue := s.queue + [Queued(s.next, mode, false)])
  }

  lemma EnqueueAppends(s: State, mode: Mode)
    ensures LiveIds(Enqueued(s, mode).queue) == LiveIds(s.queue) + [s.next]
  {
    LiveIdsAppend(s.queue, [Queued(s.next, mode, false)]);
    assert LiveIds([Queued(s.next, mode, false)]) == [s.next];
  }

  lemma EnqueueInOrder(s: State, mode: Mode)
    requires InOrder(s)
    ensures InOrder(Enqueued(s, mode))
  {
    EnqueueAppends(s, mode);
    RangeGrows(s.next);
    WithoutAppend(Range(s.next), [s.next], s.withdrawn);
    assert Without([s.next], s.withdrawn) == [s.next];
    assert s.started + (LiveIds(s.queue) + [s.next]) == (s.started + LiveIds(s.queue)) + [s.next];
  }

  lemma EnqueueKeeps(s: State, mode: Mode)
    requires Steady(s)
    ensures Steady(Enqueued(s, mode))
    ensures LiveIds(Enqueued(s, mode).queue) == LiveIds(s.queue) + [s.next]
  {
    EnqueueAppends(s, mode);
    EnqueueInOrder(s, mode);
  }

  lemma RefusedKeeps(s: State, mode: Mode)
    requires Valid(s)
    ensures Valid(DoSubmit(s, mode, true))
  {
    var t := DoSubmit(s, mode, true);
    RefusedInOrder(s, t);
    assert t.queue == s.queue && t.running == s.running && t.started == s.started;
    assert QueueOrdered(t) && SlotsAreStarted(t);
  }

  lemma RefusedInOrder(s: State, t: State)
    requires InOrder(s) && t.started == s.started && t.queue == s.queue
    requires t.next == s.next + 1 && t.withdrawn == s.withdrawn + {s.next}
    ensures InOrder(t)
  {
    RefusedLeavesNoTrace(s.next, s.withdrawn);
  }

  /** A number that is withdrawn as it is drawn does not appear. */
  lemma RefusedLeavesNoTrace(n: nat, w: set<nat>)
    ensures Without(Range(n + 1), w + {n}) == Without(Range(n), w)
  {
    RangeGrows(n);
    WithoutAppend(Range(n), [n], w + {n});
    WithoutTwice(Range(n), w, n);
    WithoutMember(Range(n), w, n);
    WithoutNothing(Without(Range(n), w), {n});
    assert Without([n], w + {n}) == [];
  }

  lemma SubmitKeeps(s: State, mode: Mode, signalAborted: bool)
    requires Valid(s)
    ensures Valid(DoSubmit(s, mode, signalAborted))
  {
    if signalAborted {
      RefusedKeeps(s, mode);
    } else {
      EnqueueKeeps(s, mode);
      PumpKeeps(Enqueued(s, mode));
    }
  }

  /** The state right after a waiting job was withdrawn. */
  function Withdrawn(s: State, id: nat): State {
    s.(queue := MarkAborted(s.queue, id), settled := s.settled + [id], withdrawn := s.withdrawn + {id})
  }

  lemma WithdrawKeeps(s: State, id: nat)
    requires Steady(s) && LiveIn(s.queue, id)
    ensures Steady(Withdrawn(s, id))
    ensures LiveIds(Withdrawn(s, id).queue) == Without(LiveIds(s.queue), {id})
  {
    LiveIdsMember(s.queue, id);
    MarkAbortedRemoves(s.queue, id);
    WaitingNotStarted(s, id);
    WithoutAppend(s.started, LiveIds(s.queue), {id});
    WithoutNothing(s.started, {id});
    WithoutTwice(Range(s.next), s.withdrawn, id);
    WithoutMember(Range(s.next), s.withdrawn, id);
    assert id in s.started + LiveIds(s.queue);
    MarkAbortedKeepsIds(s.queue, id);
  }

  lemma AbortKeeps(s: State, id: nat)
    requires Valid(s)
    ensures Valid(DoAbort(s, id))
  {
    var k := SlotOf(s.running, id);
    if LiveIn(s.queue, id) {
      WithdrawKeeps(s, id);
      PumpKeeps(Withdrawn(s, id));
    }
  }

  lemma {:induction false} MarkAbortedKeepsIds(q: seq<Queued>, id: nat)
    ensures |MarkAborted(q, id)| == |q|
    ensures forall i :: 0 <= i < |q| ==> MarkAborted(q, id)[i].id == q[i].id && MarkAborted(q, id)[i].mode == q[i].mode
  {
    if q != [] {
      MarkAbortedKeepsIds(q[1..], id);
    }
  }

  /** Settling the caller of slot k, or giving the slot back, removes exactly that caller. */
  lemma SlotUpdate(rs: seq<Slot>, k: nat)
    requires k < |rs|
    ensures !rs[k].callerSettled ==>
      multiset(Unsettled(rs[k := rs[k].(callerSettled := true)])) + multiset{rs[k].id} == multiset(Unsettled(rs))
    ensures multiset(Unsettled(rs[..k] + rs[k + 1..])) + (if rs[k].callerSettled then multiset{} else multiset{rs[k].id})
      == multiset(Unsettled(rs))
  {
    assert rs == rs[..k] + ([rs[k]] + rs[k + 1..]);
    UnsettledAppend(rs[..k], [rs[k]] + rs[k + 1..]);
    UnsettledAppend([rs[k]], rs[k + 1..]);
    UnsettledAppend(rs[..k], rs[k + 1..]);
    var gone := rs[k].(callerSettled := true);
    assert rs[k := gone] == rs[..k] + ([gone] + rs[k + 1..]);
    UnsettledAppend(rs[..k], [gone] + rs[k + 1..]);
    UnsettledAppend([gone], rs[k + 1..]);
    assert Unsettled([gone]) == [];
    assert !rs[k].callerSettled ==> Unsettled([rs[k]]) == [rs[k].id];
    assert rs[k].callerSettled ==> Unsettled([rs[k]]) == [];
  }

  /** The state after a slot is given back and before the pump runs. */
  function Released(s: State, k: nat): State
    requires k < |s.running|
  {
    var slot := s.running[k];
    s.(running := s.running[..k] + s.running[k + 1..],
       settled := if slot.callerSettled then s.settled else s.settled + [slot.id],
       parallelRunning := if slot.mode.Parallel? then s.parallelRunning - 1 else s.parallelRunning,
       sequentialRunning := s.sequentialRunning && slot.mode.Parallel?)
  }

  lemma ReleaseKeeps(s: State, k: nat)
    requires Steady(s) && k < |s.running|
    ensures Steady(Released(s, k))
  {
    var t := Released(s, k);
    assert forall i :: 0 <= i < |t.running| ==> t.running[i] == if i < k then s.running[i] else s.running[i + 1];
  }

  lemma WorkSettledKeeps(s: State, id: nat)
    requires Valid(s)
    ensures Valid(DoWorkSettled(s, id))
  {
    var k := SlotOf(s.running, id);
    if k < |s.running| {
      ReleaseKeeps(s, k);
      PumpKeeps(Released(s, k));
    }
  }

  // ---------------------------------------------------------------- callers are settled once

  lemma {:induction false} PumpSettles(s: State)
    requires SettledOnce(s)
    ensures SettledOnce(Pump(s))
    decreases |s.queue|
  {
    if s.sequentialRunning || s.queue == [] {
    } else if s.queue[0].aborted {
      PumpSettles(s.(queue := s.queue[1..]));
    } else if s.queue[0].mode.Sequential? && s.parallelRunning > 0 {
    } else if s.queue[0].mode.Parallel? && s.parallelRunning >= s.limit {
    } else {
      StartSettles(s);
      PumpSettles(StartFront(s));
    }
  }

  lemma StartSettles(s: State)
    requires SettledOnce(s) && s.queue != [] && !s.queue[0].aborted
    ensures SettledOnce(StartFront(s))
  {
    var id := s.queue[0].id;
    UnsettledAppend(s.running, [Slot(id, s.queue[0].mode, false)]);
    assert Unsettled(StartFront(s).running) == Unsettled(s.running) + [id];
  }

  lemma SubmitSettles(s: State, mode: Mode, signalAborted: bool)
    requires SettledOnce(s)
    ensures SettledOnce(DoSubmit(s, mode, signalAborted))
  {
    RangeGrows(s.next);
    if !signalAborted {
      EnqueueAppends(s, mode);
      assert SettledOnce(Enqueued(s, mode));
      PumpSettles(Enqueued(s, mode));
    }
  }

  lemma AbortSettles(s: State, id: nat)
    requires Steady(s) && SettledOnce(s)
    ensures SettledOnce(DoAbort(s, id))
  {
    var k := SlotOf(s.running, id);
    if LiveIn(s.queue, id) {
      WithdrawSettles(s, id);
      PumpSettles(Withdrawn(s, id));
    } else if k < |s.running| && !s.running[k].callerSettled {
      SlotUpdate(s.running, k);
    }
  }

  lemma WithdrawSettles(s: State, id: nat)
    requires InOrder(s) && QueueOrdered(s) && SettledOnce(s) && LiveIn(s.queue, id)
    ensures SettledOnce(Withdrawn(s, id))
  {
    LiveIdsMember(s.queue, id);
    MarkAbortedRemoves(s.queue, id);
    WaitingLineIncreases(s);
    WithoutOne(LiveIds(s.queue), id);
  }

  lemma WorkSettledSettles(s: State, id: nat)
    requires SettledOnce(s)
    ensures SettledOnce(DoWorkSettled(s, id))
  {
    var k := SlotOf(s.running, id);
    if k < |s.running| {
      SlotUpdate(s.running, k);
      assert SettledOnce(Released(s, k));
      PumpSettles(Released(s, k));
    }
  }

  lemma StepSettles(s: State, e: Event)
    requires Steady(s) && SettledOnce(s)
    ensures SettledOnce(Step(s, e))
  {
    match e
    case Submit(mode, signalAborted) => SubmitSettles(s, mode, signalAborted);
    case Abort(id) => AbortSettles(s, id);
    case WorkSettled(id) => WorkSettledSettles(s, id);
  }

  lemma {:induction false} RunSettles(s: State, es: seq<Event>)
    requires Valid(s) && SettledOnce(s)
    ensures SettledOnce(Run(s, es))
    decreases |es|
  {
    if es != [] {
      StepKeeps(s, es[0]);
      StepSettles(s, es[0]);
      RunSettles(Step(s, es[0]), es[1..]);
    }
  }

  lemma StepKeeps(s: State, e: Event)
    requires Valid(s)
    ensures Valid(Step(s, e))
  {
    match e
    case Submit(mode, signalAborted) => SubmitKeeps(s, mode, signalAborted);
    case Abort(id) => AbortKeeps(s, id);
    case WorkSettled(id) => WorkSettledKeeps(s, id);
  }

  lemma {:induction false} RunKeeps(s: State, es: seq<Event>)
    requires Valid(s)
    ensures Valid(Run(s, es)) && Run(s, es).limit == s.limit
    decreases |es|
  {
    if es != [] {
      StepKeeps(s, es[0]);
      NextGrows(s, es[0]);
      RunKeeps(Step(s, es[0]), es[1..]);
    }
  }

  // ---------------------------------------------------------------- theorems over every run

  predicate Live(s: State, id: nat) {
    exists i :: 0 <= i < |s.running| && s.running[i].id == id
  }

  /** Safety of every run: a sequential job's work overlaps no other job's,
      live work never exceeds the limit - callers rejected by an abort included,
      because their slots are counted until the work stops - and jobs start in
      submission order with the withdrawn ones left out. */
  lemma BarrierAndOrder(limit: nat, es: seq<Event>)
    requires 0 < limit
    ensures var s := Run(Init(limit), es);
      && |s.running| <= limit
      && (forall i :: 0 <= i < |s.running| && s.running[i].mode.Sequential? ==> |s.running| == 1)
      && s.started + LiveIds(s.queue) == Without(Range(s.next), s.withdrawn)
  {
    assert Valid(Init(limit));
    RunKeeps(Init(limit), es);
  }

  /** Each caller is settled at most once, and a job that is neither waiting
      nor running for its caller has been settled. */
  lemma CallersSettleOnce(limit: nat, es: seq<Event>, id: nat)
    requires 0 < limit
    requires id < Run(Init(limit), es).next
    ensures var s := Run(Init(limit), es);
      multiset(s.settled)[id] == if id in LiveIds(s.queue) || id in Unsettled(s.running) then 0 else 1
  {
    assert Valid(Init(limit)) && SettledOnce(Init(limit));
    RunSettles(Init(limit), es);
    var s := Run(Init(limit), es);
    RangeCountsOnce(s.next, id);
    assert (multiset(s.settled) + multiset(LiveIds(s.queue)) + multiset(Unsettled(s.running)))[id] == 1;
  }

  lemma {:induction false} RangeCountsOnce(n: nat, id: nat)
    ensures multiset(Range(n))[id] == if id < n then 1 else 0
  {
    if n > 0 {
      RangeGrows(n - 1);
      RangeCountsOnce(n - 1, id);
    }
  }

  /** Never stuck: while a live job waits, some job holds a slot. */
  lemma NothingWaitsOnNothing(limit: nat, es: seq<Event>)
    requires 0 < limit
    ensures var s := Run(Init(limit), es); s.running == [] ==> LiveIds(s.queue) == []
  {
    assert Valid(Init(limit));
    RunKeeps(Init(limit), es);
    WaitingNeedsRunning(Run(Init(limit), es));
  }

  lemma WaitingNeedsRunning(s: State)
    requires Barrier(s) && Blocked(s)
    ensures LiveIds(s.queue) != [] ==> s.running != []
  {
    if LiveIds(s.queue) != [] {
      var i := FirstLive(s.queue);
      assert s.sequentialRunning || s.parallelRunning > 0;
    }
  }

  lemma {:induction false} FirstLive(q: seq<Queued>) returns (i: nat)
    requires LiveIds(q) != []
    ensures i < |q| && !q[i].aborted && q[i].id == LiveIds(q)[0]
    ensures forall j :: 0 <= j < i ==> q[j].aborted
  {
    if q[0].aborted {
      var k := FirstLive(q[1..]);
      i := k + 1;
    } else {
      i := 0;
    }
  }

  // ---------------------------------------------------------------- bounded waiting

  function IndexIn(ids: seq<nat>, id: nat): (k: nat)
    ensures id in ids ==> k < |ids| && ids[k] == id && id !in ids[..k]
  {
    if ids == [] then 0 else if ids[0] == id then 0 else 1 + IndexIn(ids[1..], id)
  }

  predicate Waits(s: State, id: nat) {
    id in LiveIds(s.queue)
  }

  /** Slots that must be given back before a waiting job can start: the live
      work, and the jobs ahead of it. */
  function Rank(s: State, id: nat): nat {
    |s.running| + IndexIn(LiveIds(s.queue), id)
  }

  predicate ReleasesSlot(s: State, e: Event) {
    e.WorkSettled? && SlotOf(s.running, e.id) < |s.running|
  }

  lemma {:induction false} IndexInSuffix(ids: seq<nat>, n: nat, id: nat)
    requires n <= |ids| && id in ids[n..]
    requires forall i, j :: 0 <= i < j < |ids| ==> ids[i] < ids[j]
    ensures id in ids && IndexIn(ids, id) == n + IndexIn(ids[n..], id)
  {
    var k := IndexIn(ids[n..], id);
    assert ids[n + k] == id;
  }

  lemma {:induction false} IndexInAppend(a: seq<nat>, b: seq<nat>, id: nat)
    requires id in a
    ensures IndexIn(a + b, id) == IndexIn(a, id)
  {
    if a[0] != id {
      assert (a + b)[1..] == a[1..] + b;
      IndexInAppend(a[1..], b, id);
    }
  }

  lemma {:induction false} IndexInWithout(a: seq<nat>, w: set<nat>, id: nat)
    requires id in a && id !in w
    ensures IndexIn(Without(a, w), id) <= IndexIn(a, id)
  {
    WithoutMember(a, w, id);
    if a[0] != id {
      IndexInWithout(a[1..], w, id);
    }
  }

  lemma WaitingLineIncreases(s: State)
    requires InOrder(s)
    ensures forall i, j :: 0 <= i < j < |LiveIds(s.queue)| ==> LiveIds(s.queue)[i] < LiveIds(s.queue)[j]
  {
    WithoutStaysDistinct(Range(s.next), s.withdrawn);
    var all := s.started + LiveIds(s.queue);
    forall i, j | 0 <= i < j < |LiveIds(s.queue)| ensures LiveIds(s.queue)[i] < LiveIds(s.queue)[j] {
      assert all[|s.started| + i] < all[|s.started| + j];
    }
  }

  /** Pumping does not change the rank of a job it leaves waiting. */
  lemma PumpKeepsRank(s: State, id: nat)
    requires InOrder(s) && Waits(Pump(s), id)
    ensures Waits(s, id)
    ensures Rank(Pump(s), id) == Rank(s, id)
  {
    PumpMoves(s);
    WaitingLineIncreases(s);
    IndexInSuffix(LiveIds(s.queue), |LiveIds(s.queue)| - |LiveIds(Pump(s).queue)|, id);
  }

  /** No event lets another job overtake: the rank of a waiting job never
      grows, and every slot given back brings it down. */
  lemma StepLowersRank(s: State, e: Event, id: nat)
    requires Valid(s) && id < s.next && Waits(Step(s, e), id)
    ensures Waits(s, id)
    ensures Rank(Step(s, e), id) + (if ReleasesSlot(s, e) then 1 else 0) <= Rank(s, id)
  {
    match e
    case Submit(mode, signalAborted) =>
      if !signalAborted {
        EnqueueKeeps(s, mode);
        PumpKeepsRank(Enqueued(s, mode), id);
        assert id in LiveIds(s.queue);
        IndexInAppend(LiveIds(s.queue), [s.next], id);
      }
    case Abort(other) =>
      if LiveIn(s.queue, other) {
        WithdrawKeeps(s, other);
        PumpKeepsRank(Withdrawn(s, other), id);
        WithoutMember(LiveIds(s.queue), {other}, id);
        IndexInWithout(LiveIds(s.queue), {other}, id);
      }
    case WorkSettled(other) =>
      var k := SlotOf(s.running, other);
      if k < |s.running| {
        ReleaseKeeps(s, k);
        PumpKeepsRank(Released(s, k), id);
      }
  }

  /** How many slots a run gives back. */
  function SlotsReleased(s: State, es: seq<Event>): nat
    decreases |es|
  {
    if es == [] then 0
    else (if ReleasesSlot(s, es[0]) then 1 else 0) + SlotsReleased(Step(s, es[0]), es[1..])
  }

  /** Bounded waiting, whatever else is submitted or aborted meanwhile: a run
      that leaves a job waiting gave back fewer slots than the job's rank, so
      every live job starts once enough work has stopped. */
  lemma {:induction false} BoundedWaiting(s: State, es: seq<Event>, id: nat)
    requires Valid(s) && id < s.next
    ensures Waits(Run(s, es), id) ==> Waits(s, id) && SlotsReleased(s, es) < Rank(s, id)
    decreases |es|
  {
    if es == [] {
      WaitingNeedsRunning(s);
    } else {
      var t := Step(s, es[0]);
      StepKeeps(s, es[0]);
      NextGrows(s, es[0]);
      BoundedWaiting(t, es[1..], id);
      if Waits(Run(s, es), id) {
        StepLowersRank(s, es[0], id);
      }
    }
  }

  lemma NextGrows(s: State, e: Event)
    ensures s.next <= Step(s, e).next && s.limit == Step(s, e).limit
  {
    match e
    case Submit(mode, signalAborted) => PumpMoves(Enqueued(s, mode));
    case Abort(id) => PumpMoves(Withdrawn(s, id));
    case WorkSettled(id) =>
      var k := SlotOf(s.running, id);
      if k < |s.running| {
        PumpMoves(Released(s, k));
      }
  }

  // ---------------------------------------------------------------- the gate itself

  /** The gate as the program keeps it.  `running` holds the started jobs whose
      work promise is outstanding; the ghost fields record what an observer sees. */
  class Gate {
    const parallelLimit: nat
    var queue: seq<Queued>
    var parallelRunning: int
    var sequentialRunning: bool
    var running: seq<Slot>
    var next: nat
    ghost var started: seq<nat>
    ghost var settled: seq<nat>
    ghost var withdrawn: set<nat>

    ghost function View(): State
      reads this
    {
      State(parallelLimit, queue, parallelRunning, sequentialRunning, running, started, settled, withdrawn, next)
    }

    constructor (limit: nat)
      requires 0 < limit
      ensures View() == Init(limit)
    {
      parallelLimit := limit;
      queue, running, next := [], [], 0;
      parallelRunning, sequentialRunning := 0, false;
      started, settled, withdrawn := [], [], {};
    }

    /** Submit a job; a job whose signal has already fired is refused on the spot. */
    method Submit(mode: Mode, signalAborted: bool) returns (id: nat)
      modifies this
      ensures id == old(next)
      ensures View() == DoSubmit(old(View()), mode, signalAborted)
    {
      id := next;
      next := next + 1;
      if signalAborted {
        settled, withdrawn := settled + [id], withdrawn + {id};
        return;
      }
      queue := queue + [Queued(id, mode, false)];
      Drain();
    }

    /** The abort signal of job `id` fires. */
    method OnAbort(id: nat)
      modifies this
      ensures View() == DoAbort(old(View()), id)
    {
      var k := SlotOf(running, id);
      if LiveIn(queue, id) {
        queue := MarkAborted(queue, id);
        settled, withdrawn := settled + [id], withdrawn + {id};
        Drain();
      } else if k < |running| && !running[k].callerSettled {
        running := running[k := running[k].(callerSettled := true)];
        settled := settled + [id];
      }
    }

    /** The host work of job `id` has stopped; only now is its slot free. */
    method OnWorkSettled(id: nat)
      modifies this
      ensures View() == DoWorkSettled(old(View()), id)
    {
      var k := SlotOf(running, id);
      if k == |running| {
        return;
      }
      var slot := running[k];
      running := running[..k] + running[k + 1..];
      if !slot.callerSettled {
        settled := settled + [id];
      }
      if slot.mode.Parallel? {
        parallelRunning := parallelRunning - 1;
      } else {
        sequentialRunning := false;
      }
      Drain();
    }

    /** Start as many jobs from the front as the barrier and the limit allow. */
    method Drain()
      modifies this
      ensures View() == Pump(old(View()))
    {
      if sequentialRunning {
        return;
      }
      while |queue| > 0
        invariant !sequentialRunning
        invariant Pump(View()) == Pump(old(View()))
        decreases |queue|
      {
        while |queue| > 0 && queue[0].aborted
          invariant !sequentialRunning
          invariant Pump(View()) == Pump(old(View()))
          invariant |queue| <= old(|queue|)
          decreases |queue|
        {
          queue := queue[1..];
        }
        if |queue| == 0 {
          return;
        }
        var job := queue[0];
        if job.mode.Sequential? {
          if parallelRunning > 0 {
            return;
          }
          queue := queue[1..];
          sequentialRunning := true;
          Start(job);
          return;
        }
        if parallelRunning >= parallelLimit {
          return;
        }
        queue := queue[1..];
        parallelRunning := parallelRunning + 1;
        Start(job);
      }
    }

    method Start(job: Queued)
      modifies this`running, this`started
      ensures running == old(running) + [Slot(job.id, job.mode, false)]
      ensures started == old(started) + [job.id]
    {
      running := running + [Slot(job.id, job.mode, false)];
      started := started + [job.id];
    }
  }
}
