/** The gate read off from the events alone: which callers have been settled and
    by what, which jobs never start, how long a slot is held, and that jobs are
    served in the mode in which they were submitted.
 */
module HostCallEvents {
  import opened HostCallGate

  // ---------------------------------------------------------------- what the events say

  function Submits(es: seq<Event>): nat {
    if es == [] then 0 else Submits(es[..|es| - 1]) + if es[|es| - 1].Submit? then 1 else 0
  }

  /** The mode in which job `id` was submitted. */
  function ModeOf(es: seq<Event>, id: nat): Mode
    requires id < Submits(es)
  {
    var init, e := es[..|es| - 1], es[|es| - 1];
    if id < Submits(init) then ModeOf(init, id) else e.mode
  }

  /** The state of the gate when event k comes in. */
  function At(limit: nat, es: seq<Event>, k: nat): State
    requires k <= |es|
  {
    Run(Init(limit), es[..k])
  }

  /** Event k settles the caller of job `id`, unless it is settled already: it is
      refused at submission, aborted, or its work stops. */
  predicate SettlesCaller(limit: nat, es: seq<Event>, k: nat, id: nat)
    requires k < |es|
  {
    match es[k]
    case Submit(_, aborted) => aborted && id == Submits(es[..k])
    case Abort(x) => x == id && id < Submits(es[..k])
    case WorkSettled(x) => x == id && Live(At(limit, es, k), id)
  }

  /** Event k keeps job `id` from ever starting: refused at submission, or aborted before it started. */
  predicate Withdraws(limit: nat, es: seq<Event>, k: nat, id: nat)
    requires k < |es|
  {
    match es[k]
    case Submit(_, aborted) => aborted && id == Submits(es[..k])
    case Abort(x) => x == id && id < Submits(es[..k]) && id !in At(limit, es, k).started
    case WorkSettled(_) => false
  }

  // ---------------------------------------------------------------- one step

  lemma {:induction false} RunSnoc(s: State, es: seq<Event>, e: Event)
    ensures Run(s, es + [e]) == Step(Run(s, es), e)
    decreases |es|
  {
    if es == [] {
      assert es + [e] == [e] && [e][1..] == [];
    } else {
      assert (es + [e])[1..] == es[1..] + [e] && (es + [e])[0] == es[0];
      RunSnoc(Step(s, es[0]), es[1..], e);
    }
  }

  /** Pumping settles and withdraws nobody, lets go of no slot and changes no mode. */
  lemma {:induction false} PumpLeaves(s: State)
    ensures Pump(s).settled == s.settled && Pump(s).withdrawn == s.withdrawn && Pump(s).next == s.next
    ensures s.started <= Pump(s).started && s.running <= Pump(s).running
    ensures forall x :: x in Pump(s).started ==> x in s.started || x in LiveIds(s.queue)
    decreases |s.queue|
  {
    if s.sequentialRunning || s.queue == [] {
    } else if s.queue[0].aborted {
      PumpLeaves(s.(queue := s.queue[1..]));
    } else if s.queue[0].mode.Sequential? && s.parallelRunning > 0 {
    } else if s.queue[0].mode.Parallel? && s.parallelRunning >= s.limit {
    } else {
      PumpLeaves(StartFront(s));
    }
  }

  predicate Settled(s: State, id: nat) {
    id in s.settled
  }

  /** In state s the event settles the caller. */
  predicate Settling(s: State, e: Event, id: nat) {
    match e
    case Submit(_, aborted) => aborted && id == s.next
    case Abort(x) => x == id && id < s.next
    case WorkSettled(x) => x == id && Live(s, id)
  }

  predicate Withdrawing(s: State, e: Event, id: nat) {
    match e
    case Submit(_, aborted) => aborted && id == s.next
    case Abort(x) => x == id && id < s.next && id !in s.started
    case WorkSettled(_) => false
  }

  /** A job that neither waits nor runs for its caller has been settled. */
  lemma {:induction false} UnsettledMember(rs: seq<Slot>, id: nat)
    ensures id in Unsettled(rs) <==> exists i :: 0 <= i < |rs| && rs[i].id == id && !rs[i].callerSettled
  {
    if rs != [] {
      UnsettledMember(rs[1..], id);
      assert forall i :: 1 <= i < |rs| ==> rs[i] == rs[1..][i - 1];
    }
  }

  lemma SettledOrWaiting(s: State, id: nat)
    requires SettledOnce(s) && id < s.next
    ensures Settled(s, id) <==> id !in LiveIds(s.queue) && id !in Unsettled(s.running)
  {
    RangeCountsOnce(s.next, id);
    assert (multiset(s.settled) + multiset(LiveIds(s.queue)) + multiset(Unsettled(s.running)))[id] == 1;
    assert id in s.settled <==> multiset(s.settled)[id] > 0;
    assert id in LiveIds(s.queue) <==> multiset(LiveIds(s.queue))[id] > 0;
    assert id in Unsettled(s.running) <==> multiset(Unsettled(s.running))[id] > 0;
  }

  /** One slot per job: slots are those of started jobs, which are distinct. */
  ghost predicate SlotsDistinct(s: State) {
    forall i, j :: 0 <= i < j < |s.running| ==> s.running[i].id != s.running[j].id
  }

  lemma AbortSettling(s: State, x: nat, id: nat)
    requires Valid(s) && SettledOnce(s) && SlotsDistinct(s)
    ensures Settled(DoAbort(s, x), id) <==> Settled(s, id) || (x == id && id < s.next)
    ensures id in DoAbort(s, x).withdrawn <==> id in s.withdrawn || Withdrawing(s, Abort(x), id)
  {
    var k := SlotOf(s.running, x);
    LiveIdsMember(s.queue, x);
    if LiveIn(s.queue, x) {
      PumpLeaves(Withdrawn(s, x));
      WaitingNotStarted(s, x);
      WithoutMember(Range(s.next), s.withdrawn, x);
      assert x in s.started + LiveIds(s.queue);
    } else {
      if x < s.next {
        SettledOrWaiting(s, x);
        UnsettledMember(s.running, x);
        NotWaitingIsDone(s, x);
      }
      if k < |s.running| && !s.running[k].callerSettled {
        assert s.running[k].id in s.started && x in s.started + LiveIds(s.queue);
        WithoutMember(Range(s.next), s.withdrawn, x);
      }
    }
  }

  /** A submitted job that does not wait has started or was withdrawn. */
  lemma NotWaitingIsDone(s: State, x: nat)
    requires InOrder(s) && x < s.next && x !in LiveIds(s.queue)
    ensures x in s.started || x in s.withdrawn
  {
    WithoutMember(Range(s.next), s.withdrawn, x);
    assert Range(s.next)[x] == x;
  }

  lemma StepSettling(s: State, e: Event, id: nat)
    requires Valid(s) && SettledOnce(s) && SlotsDistinct(s)
    ensures Settled(Step(s, e), id) <==> Settled(s, id) || Settling(s, e, id)
    ensures id in Step(s, e).withdrawn <==> id in s.withdrawn || Withdrawing(s, e, id)
  {
    match e
    case Submit(mode, aborted) => if !aborted { PumpLeaves(Enqueued(s, mode)); }
    case Abort(x) => AbortSettling(s, x, id);
    case WorkSettled(x) => ReleaseSettling(s, x, id);
  }

  lemma ReleaseSettling(s: State, x: nat, id: nat)
    requires Valid(s) && SettledOnce(s) && SlotsDistinct(s)
    ensures Settled(DoWorkSettled(s, x), id) <==> Settled(s, id) || (x == id && Live(s, id))
    ensures DoWorkSettled(s, x).withdrawn == s.withdrawn
  {
    var k := SlotOf(s.running, x);
    if k < |s.running| {
      PumpLeaves(Released(s, k));
      assert Live(s, x);
      assert x in s.started;
      StartedIsSubmitted(s, x);
      WaitingNotStartedNot(s, x);
      SettledOrWaiting(s, x);
      UnsettledMember(s.running, x);
    }
  }

  lemma StartedIsSubmitted(s: State, x: nat)
    requires InOrder(s) && x in s.started
    ensures x < s.next && x !in s.withdrawn
  {
    assert x in s.started + LiveIds(s.queue);
    WithoutMember(Range(s.next), s.withdrawn, x);
  }

  lemma WaitingNotStartedNot(s: State, x: nat)
    requires InOrder(s) && x in s.started
    ensures x !in LiveIds(s.queue)
  {
    if x in LiveIds(s.queue) {
      WaitingNotStarted(s, x);
      assert false;
    }
  }

  // ---------------------------------------------------------------- slots

  lemma {:induction false} PumpDistinct(s: State)
    requires Steady(s) && SlotsDistinct(s)
    ensures SlotsDistinct(Pump(s))
    decreases |s.queue|
  {
    if s.sequentialRunning || s.queue == [] {
    } else if s.queue[0].aborted {
      DropAbortedKeeps(s);
      PumpDistinct(s.(queue := s.queue[1..]));
    } else if s.queue[0].mode.Sequential? && s.parallelRunning > 0 {
    } else if s.queue[0].mode.Parallel? && s.parallelRunning >= s.limit {
    } else {
      StartFrontKeeps(s);
      WaitingNotStarted(s, s.queue[0].id);
      PumpDistinct(StartFront(s));
    }
  }

  lemma StepDistinct(s: State, e: Event)
    requires Valid(s) && SlotsDistinct(s)
    ensures SlotsDistinct(Step(s, e))
  {
    match e
    case Submit(mode, aborted) =>
      if !aborted {
        EnqueueKeeps(s, mode);
        PumpDistinct(Enqueued(s, mode));
      }
    case Abort(x) =>
      if LiveIn(s.queue, x) {
        WithdrawKeeps(s, x);
        PumpDistinct(Withdrawn(s, x));
      }
    case WorkSettled(x) =>
      var k := SlotOf(s.running, x);
      if k < |s.running| {
        ReleaseKeeps(s, k);
        PumpDistinct(Released(s, k));
      }
  }

  /** What is kept of a job with a slot: the slot, until its own work stops. */
  lemma StepHolds(s: State, e: Event, id: nat)
    requires Valid(s) && SlotsDistinct(s)
    ensures s.started <= Step(s, e).started
    ensures Live(s, id) ==> (Live(Step(s, e), id) <==> e != WorkSettled(id))
    ensures id in s.started && !Live(s, id) ==> !Live(Step(s, e), id)
  {
    match e
    case Submit(mode, aborted) =>
      if !aborted {
        EnqueueKeeps(s, mode);
        EnqueueIsNew(s, mode, id);
        PumpHolds(Enqueued(s, mode), id);
      }
    case Abort(x) =>
      if LiveIn(s.queue, x) {
        WithdrawKeeps(s, x);
        PumpHolds(Withdrawn(s, x), id);
      } else {
        AbortHolds(s, x, id);
      }
    case WorkSettled(x) => ReleaseHolds(s, x, id);
  }

  lemma EnqueueIsNew(s: State, mode: Mode, id: nat)
    requires InOrder(s)
    ensures Live(Enqueued(s, mode), id) <==> Live(s, id)
  {
  }

  lemma AbortHolds(s: State, x: nat, id: nat)
    requires !LiveIn(s.queue, x)
    ensures DoAbort(s, x).started == s.started && (Live(DoAbort(s, x), id) <==> Live(s, id))
  {
    var t := DoAbort(s, x);
    assert |t.running| == |s.running| && forall i :: 0 <= i < |s.running| ==> t.running[i].id == s.running[i].id;
  }

  lemma {:induction false} PumpHolds(s: State, id: nat)
    requires Steady(s)
    ensures s.started <= Pump(s).started
    ensures Live(s, id) ==> Live(Pump(s), id)
    ensures id in s.started && !Live(s, id) ==> !Live(Pump(s), id)
    decreases |s.queue|
  {
    if s.sequentialRunning || s.queue == [] {
    } else if s.queue[0].aborted {
      DropAbortedKeeps(s);
      PumpHolds(s.(queue := s.queue[1..]), id);
    } else if s.queue[0].mode.Sequential? && s.parallelRunning > 0 {
    } else if s.queue[0].mode.Parallel? && s.parallelRunning >= s.limit {
    } else {
      var t := StartFront(s);
      StartFrontKeeps(s);
      WaitingNotStarted(s, s.queue[0].id);
      assert forall i :: 0 <= i < |s.running| ==> t.running[i] == s.running[i];
      PumpHolds(t, id);
    }
  }

  lemma ReleaseHolds(s: State, x: nat, id: nat)
    requires Valid(s) && SlotsDistinct(s)
    ensures s.started <= DoWorkSettled(s, x).started
    ensures Live(s, id) ==> (Live(DoWorkSettled(s, x), id) <==> x != id)
    ensures id in s.started && !Live(s, id) ==> !Live(DoWorkSettled(s, x), id)
  {
    var k := SlotOf(s.running, x);
    if k < |s.running| {
      var t := Released(s, k);
      ReleaseKeeps(s, k);
      assert forall i :: 0 <= i < |t.running| ==> t.running[i] == s.running[if i < k then i else i + 1];
      if Live(s, id) && x != id {
        var i :| 0 <= i < |s.running| && s.running[i].id == id;
        assert t.running[if i < k then i else i - 1].id == id;
      }
      assert id in s.started ==> id in t.started;
      assert Live(s, id) ==> id in s.started;
      PumpHolds(t, id);
    }
  }

  // ---------------------------------------------------------------- modes

  /** Waiting and running jobs have the mode they were submitted with. */
  ghost predicate ModesOk(s: State, es: seq<Event>) {
    && s.next == Submits(es)
    && (forall j :: j in s.queue ==> j.id < Submits(es) && j.mode == ModeOf(es, j.id))
    && (forall r :: r in s.running ==> r.id < Submits(es) && r.mode == ModeOf(es, r.id))
  }

  lemma {:induction false} PumpModes(s: State, es: seq<Event>)
    requires ModesOk(s, es)
    ensures ModesOk(Pump(s), es)
    decreases |s.queue|
  {
    if s.sequentialRunning || s.queue == [] {
    } else if s.queue[0].aborted {
      PumpModes(s.(queue := s.queue[1..]), es);
    } else if s.queue[0].mode.Sequential? && s.parallelRunning > 0 {
    } else if s.queue[0].mode.Parallel? && s.parallelRunning >= s.limit {
    } else {
      assert s.queue[0] in s.queue;
      PumpModes(StartFront(s), es);
    }
  }

  lemma ModeStays(es: seq<Event>, e: Event)
    ensures Submits(es + [e]) == Submits(es) + (if e.Submit? then 1 else 0)
    ensures forall id :: 0 <= id < Submits(es) ==> ModeOf(es + [e], id) == ModeOf(es, id)
    ensures e.Submit? ==> ModeOf(es + [e], Submits(es)) == e.mode
  {
    assert (es + [e])[..|es|] == es;
  }

  lemma ModesLater(s: State, es: seq<Event>, e: Event)
    requires ModesOk(s, es) && !e.Submit?
    ensures ModesOk(s, es + [e])
  {
    ModeStays(es, e);
  }

  lemma StepModes(s: State, es: seq<Event>, e: Event)
    requires ModesOk(s, es)
    ensures ModesOk(Step(s, e), es + [e])
  {
    ModeStays(es, e);
    match e
    case Submit(mode, aborted) =>
      if !aborted {
        var t := Enqueued(s, mode);
        assert forall j :: j in t.queue ==> j in s.queue || j == Queued(s.next, mode, false);
        PumpModes(t, es + [e]);
      }
    case Abort(x) =>
      ModesLater(s, es, e);
      AbortModes(s, es + [e], x);
    case WorkSettled(x) =>
      ModesLater(s, es, e);
      var k := SlotOf(s.running, x);
      if k < |s.running| {
        PumpModes(Released(s, k), es + [e]);
      }
  }

  lemma AbortModes(s: State, es: seq<Event>, x: nat)
    requires ModesOk(s, es)
    ensures ModesOk(DoAbort(s, x), es)
  {
    var k := SlotOf(s.running, x);
    if LiveIn(s.queue, x) {
      MarkAbortedKeepsIds(s.queue, x);
      var t := Withdrawn(s, x);
      forall j | j in t.queue ensures j.id < Submits(es) && j.mode == ModeOf(es, j.id) {
        var i :| 0 <= i < |t.queue| && t.queue[i] == j;
        assert s.queue[i] in s.queue;
      }
      PumpModes(t, es);
    } else if k < |s.running| {
      assert s.running[k] in s.running;
    }
  }

  // ---------------------------------------------------------------- every run

  ghost predicate Sure(s: State, es: seq<Event>) {
    Valid(s) && SettledOnce(s) && SlotsDistinct(s) && ModesOk(s, es)
  }

  lemma {:induction false} AlwaysSure(limit: nat, es: seq<Event>)
    requires 0 < limit
    ensures Sure(Run(Init(limit), es), es)
    decreases |es|
  {
    if es == [] {
      assert Valid(Init(limit)) && SettledOnce(Init(limit));
    } else {
      var init, e := es[..|es| - 1], es[|es| - 1];
      assert es == init + [e];
      AlwaysSure(limit, init);
      RunSnoc(Init(limit), init, e);
      var s := Run(Init(limit), init);
      StepKeeps(s, e);
      StepSettles(s, e);
      StepDistinct(s, e);
      StepModes(s, init, e);
    }
  }

  /** What event k of a longer run does is what it does in the shorter one. */
  lemma SameBefore(limit: nat, es: seq<Event>, e: Event, k: nat, id: nat)
    requires k < |es|
    ensures SettlesCaller(limit, es + [e], k, id) <==> SettlesCaller(limit, es, k, id)
    ensures Withdraws(limit, es + [e], k, id) <==> Withdraws(limit, es, k, id)
  {
    assert (es + [e])[..k] == es[..k];
  }

  /** Settlement from the events: the caller of a job has been settled, and then
      exactly once, if and only if the job was refused when it was submitted, or
      an abort came after its submission, or its work has stopped. */
  lemma {:induction false} SettledIff(limit: nat, es: seq<Event>, id: nat)
    requires 0 < limit
    ensures Settled(Run(Init(limit), es), id) <==> exists k :: 0 <= k < |es| && SettlesCaller(limit, es, k, id)
    decreases |es|
  {
    if es != [] {
      var init, e := es[..|es| - 1], es[|es| - 1];
      assert es == init + [e] && es[..|init|] == init;
      SettledIff(limit, init, id);
      AlwaysSure(limit, init);
      RunSnoc(Init(limit), init, e);
      StepSettling(Run(Init(limit), init), e, id);
      forall k | 0 <= k < |init| ensures SettlesCaller(limit, es, k, id) <==> SettlesCaller(limit, init, k, id) {
        SameBefore(limit, init, e, k, id);
      }
      assert SettlesCaller(limit, es, |init|, id) <==> Settling(Run(Init(limit), init), e, id);
    }
  }

  /** Withdrawal from the events: the jobs left out of the starts are exactly those
      refused when submitted or aborted before they started. */
  lemma {:induction false} WithdrawnIff(limit: nat, es: seq<Event>, id: nat)
    requires 0 < limit
    ensures id in Run(Init(limit), es).withdrawn <==> exists k :: 0 <= k < |es| && Withdraws(limit, es, k, id)
    decreases |es|
  {
    if es != [] {
      var init, e := es[..|es| - 1], es[|es| - 1];
      assert es == init + [e] && es[..|init|] == init;
      WithdrawnIff(limit, init, id);
      AlwaysSure(limit, init);
      RunSnoc(Init(limit), init, e);
      StepSettling(Run(Init(limit), init), e, id);
      forall k | 0 <= k < |init| ensures Withdraws(limit, es, k, id) <==> Withdraws(limit, init, k, id) {
        SameBefore(limit, init, e, k, id);
      }
      assert Withdraws(limit, es, |init|, id) <==> Withdrawing(Run(Init(limit), init), e, id);
    }
  }

  lemma {:induction false} RunHolds(s: State, es: seq<Event>, id: nat)
    requires Valid(s) && SlotsDistinct(s) && id in s.started
    ensures id in Run(s, es).started && (Live(Run(s, es), id) <==> Live(s, id) && WorkSettled(id) !in es)
    decreases |es|
  {
    if es != [] {
      StepKeeps(s, es[0]);
      StepDistinct(s, es[0]);
      StepHolds(s, es[0], id);
      RunHolds(Step(s, es[0]), es[1..], id);
      assert WorkSettled(id) in es <==> es[0] == WorkSettled(id) || WorkSettled(id) in es[1..];
    }
  }

  /** A job that holds a slot keeps it until its own work stops, whatever is aborted meanwhile. */
  lemma SlotHeldIff(limit: nat, es: seq<Event>, more: seq<Event>, id: nat)
    requires 0 < limit && Live(Run(Init(limit), es), id)
    ensures Live(Run(Run(Init(limit), es), more), id) <==> WorkSettled(id) !in more
  {
    AlwaysSure(limit, es);
    RunHolds(Run(Init(limit), es), more, id);
  }

  /** Serving in mode: the work of a job submitted as sequential overlaps no other. */
  lemma SequentialRunsAlone(limit: nat, es: seq<Event>, id: nat)
    requires 0 < limit && id < Submits(es) && ModeOf(es, id) == Sequential && Live(Run(Init(limit), es), id)
    ensures |Run(Init(limit), es).running| == 1
  {
    AlwaysSure(limit, es);
    var s := Run(Init(limit), es);
    var i :| 0 <= i < |s.running| && s.running[i].id == id;
    assert s.running[i] in s.running;
  }

  lemma {:induction false} RunConcat(s: State, a: seq<Event>, b: seq<Event>)
    ensures Run(s, a + b) == Run(Run(s, a), b)
    decreases |a|
  {
    if a == [] {
      assert a + b == b;
    } else {
      assert (a + b)[1..] == a[1..] + b && (a + b)[0] == a[0];
      RunConcat(Step(s, a[0]), a[1..], b);
    }
  }

  lemma {:induction false} OnceSettled(s: State, es: seq<Event>, more: seq<Event>, id: nat, limit: nat)
    requires 0 < limit && s == Run(Init(limit), es) && Settled(s, id)
    ensures Settled(Run(s, more), id)
    decreases |more|
  {
    if more != [] {
      AlwaysSure(limit, es);
      StepSettling(s, more[0], id);
      RunSnoc(Init(limit), es, more[0]);
      OnceSettled(Step(s, more[0]), es + [more[0]], more[1..], id, limit);
    }
  }

  lemma {:induction false} OnceWithdrawn(s: State, es: seq<Event>, more: seq<Event>, id: nat, limit: nat)
    requires 0 < limit && s == Run(Init(limit), es) && id in s.withdrawn
    ensures id in Run(s, more).withdrawn
    decreases |more|
  {
    if more != [] {
      AlwaysSure(limit, es);
      StepSettling(s, more[0], id);
      RunSnoc(Init(limit), es, more[0]);
      OnceWithdrawn(Step(s, more[0]), es + [more[0]], more[1..], id, limit);
    }
  }

  /** An abort: in every state after it the caller has been settled exactly once,
      and a job that had not started by then never starts. */
  lemma AbortSettlesForGood(limit: nat, es: seq<Event>, id: nat, more: seq<Event>)
    requires 0 < limit && id < Submits(es)
    ensures var s, t := Run(Init(limit), es), Run(Init(limit), es + [Abort(id)] + more);
      && multiset(t.settled)[id] == 1
      && (id !in s.started ==> id !in t.started)
  {
    var s, e := Run(Init(limit), es), Abort(id);
    var t := Run(Init(limit), es + [e] + more);
    AlwaysSure(limit, es);
    RunSnoc(Init(limit), es, e);
    StepSettling(s, e, id);
    RunConcat(Init(limit), es + [e], more);
    OnceSettled(Step(s, e), es + [e], more, id, limit);
    AlwaysSure(limit, es + [e] + more);
    SettledCount(t, id);
    if id !in s.started {
      OnceWithdrawn(Step(s, e), es + [e], more, id, limit);
      if id in t.started {
        StartedIsSubmitted(t, id);
        assert false;
      }
    }
  }

  lemma SettledCount(t: State, id: nat)
    requires SettledOnce(t) && Settled(t, id)
    ensures multiset(t.settled)[id] == 1
  {
    RangeCountsOnce(t.next, id);
    assert (multiset(t.settled) + multiset(LiveIds(t.queue)) + multiset(Unsettled(t.running)))[id] <= 1;
    assert multiset(t.settled)[id] > 0;
  }
}
