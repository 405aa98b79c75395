/** Three runs that show why each condition of a disciplined run is there: each
    leaves an agent in waiting_result with nothing left that could wake it.
 */
module TeamStalls {
  import opened Subagents
  import opened TeamCoordination

  const A: Path := ["a"]
  const B: Path := ["a", "b"]

  lemma {:induction false} RunAppend(s: Team, es: seq<Event>, fs: seq<Event>)
    ensures Run(s, es + fs) == Run(Run(s, es), fs)
    decreases |es|
  {
    if es == [] {
      assert es + fs == fs;
    } else {
      assert (es + fs)[0] == es[0] && (es + fs)[1..] == es[1..] + fs;
      RunAppend(Step(s, es[0]), es[1..], fs);
    }
  }

  lemma RunOne(s: Team, e: Event)
    ensures Run(s, [e]) == Step(s, e)
  {
    assert [e][1..] == [];
  }

  /** One more event at the end of a run from the start. */
  lemma Next(es: seq<Event>, e: Event)
    ensures Run(Init(), es + [e]) == Step(Run(Init(), es), e)
  {
    RunAppend(Init(), es, [e]);
    RunOne(Run(Init(), es), e);
  }

  // ---------------------------------------------------------------- a stale `waiting` report

  function R(p: Path): Record { Record(p, None, false) }
  function D(p: Path): Record { Record(p, Some(Completed), false) }

  /** The log after n records were created. */
  function Logged(n: nat): seq<LogLine> {
    if n == 0 then [] else Logged(n - 1) + [LogLine(n - 1, RunningStatus)]
  }

  /** a and b run; a has reported that it waits for b. */
  function BothRun(): Team {
    Team(Runtime(map[0 := R(A), 1 := R(B)], [], {0, 1}, 2, 2, {0, 1}, {},
                 Logged(2), []),
         map[A := Agent(0, Some(Waiting), []), B := Agent(1, None, [])], {}, {})
  }

  lemma ReachBothRun()
    ensures Run(Init(), [Spawn([], "a", false), Spawn(A, "b", false), Declare(A, Waiting)]) == BothRun()
  {
    var e1, e2, e3 := Spawn([], "a", false), Spawn(A, "b", false), Declare(A, Waiting);
    var s1 := Step(Init(), e1);
    assert [] + ["a"] == A;
    assert s1 == Team(Runtime(map[0 := R(A)], [], {0}, 1, 1, {0}, {}, Logged(1), []), map[A := Agent(0, None, [])], {}, {});
    var s2 := Step(s1, e2);
    assert A + ["b"] == B;
    assert s2 == BothRun().(agents := map[A := Agent(0, None, []), B := Agent(1, None, [])]);
    assert Parent(B) == A;
    assert IsChild(B, A) && StatusOf(s2, B).Running?;
    assert HasPendingChild(s2, A);
    assert Step(s2, e3) == BothRun();
    assert [e1, e2, e3][1..] == [e2, e3] && [e2, e3][1..] == [e3];
    RunOne(s2, e3);
  }

  /** A run executes in a slot, ends well, is handled and gives its slot back. */
  function RunOver(id: nat): seq<Event> {
    [RunEnds(id, true), HandlerDelivers(id), HandlerFollowsUp(id), SlotReleased(id)]
  }

  lemma ReleaseSkips(rt: Runtime, id: nat)
    requires rt.queue == [] || (|rt.queue| == 1 && rt.queue[0] in rt.records && rt.records[rt.queue[0]].cancelRequested)
    ensures ReleaseSlot(rt, id) == rt.(queue := [], running := rt.running - {id}, runningCount := rt.runningCount - 1)
  {
    var freed := rt.(running := rt.running - {id}, runningCount := rt.runningCount - 1);
    if rt.queue != [] {
      assert freed.queue[1..] == [];
      assert StartNext(freed) == StartNext(freed.(queue := []));
    }
  }

  /** Run `id` of agent p executes in s, and its end needs to wake nobody. */
  predicate EndsUnheard(s: Team, id: nat, p: Path) {
    && (id in s.rt.running && Unfinished(s.rt, id) && s.rt.records[id] == R(p) && p != [])
    && (p in s.agents && s.agents[p].record == id && s.agents[p].pending == [])
    && (s.rt.queue == [] || (|s.rt.queue| == 1 && s.rt.queue[0] != id && s.rt.queue[0] in s.rt.records && s.rt.records[s.rt.queue[0]].cancelRequested))
    && (s.rt.inflight == {} && s.delivered == {} && id in s.rt.handlers)
    && (Parent(p) in s.agents ==> s.agents[Parent(p)].record != id)
    && (Quiet(s, p) || Parent(p) !in s.agents || StatusOf(s, Parent(p)).Running?)
  }

  /** A run that ends well in a team with no other handlers and at most one
      queued record, one whose signal has fired, leaves the queue empty and
      everything else as it was, if its parent needs no waking. */
  lemma RunOverEffect(s: Team, id: nat, p: Path)
    requires EndsUnheard(s, id, p)
    ensures var t := Run(s, RunOver(id));
      && t.agents == s.agents && t.deferred == s.deferred && t.delivered == {}
      && t.rt.records == s.rt.records[id := D(p)]
      && t.rt.queue == [] && t.rt.running == s.rt.running - {id} && t.rt.inflight == {} && t.rt.handlers == s.rt.handlers - {id}
  {
    var e := RunOver(id);
    var s1 := Step(s, e[0]);
    assert s1.rt.records == s.rt.records[id := D(p)] && s1.rt.inflight == {id} && s1.agents == s.agents;
    assert Quiet(s1, p) == Quiet(s, p);
    if Parent(p) in s.agents && !Quiet(s, p) {
      assert Parent(p) != p;
      assert StatusOf(s1, Parent(p)).Running?;
    }
    var s2 := Step(s1, e[1]);
    assert s2 == s1.(rt := s1.rt.(inflight := {}), delivered := {id});
    var s3 := Step(s2, e[2]);
    assert s3 == s2.(delivered := {});
    var s4 := Step(s3, e[3]);
    ReleaseSkips(s3.rt, id);
    assert e[1..][1..] == e[2..] && e[2..][1..] == e[3..] && e[3..] == [e[3]];
    RunOne(s3, e[3]);
    assert Run(s2, e[2..]) == s4;
    assert Run(s1, e[1..]) == s4;
  }

  lemma ThenRunOver(es: seq<Event>, id: nat, p: Path) returns (fs: seq<Event>)
    requires EndsUnheard(Run(Init(), es), id, p)
    ensures fs == es + RunOver(id)
    ensures var s, t := Run(Init(), es), Run(Init(), fs);
      && t.agents == s.agents && t.deferred == s.deferred && t.delivered == {}
      && t.rt.records == s.rt.records[id := D(p)]
      && t.rt.queue == [] && t.rt.running == s.rt.running - {id} && t.rt.inflight == {} && t.rt.handlers == s.rt.handlers - {id}
  {
    fs := es + RunOver(id);
    RunAppend(Init(), es, RunOver(id));
    RunOverEffect(Run(Init(), es), id, p);
  }

  /** Agent a reports `waiting` for b, b's result reaches a inside that same
      run, and a ends the run without a new report.  The stale report leaves it
      waiting with the team at rest. */
  lemma StaleReportStalls() returns (es: seq<Event>)
    ensures IsWaiting(Run(Init(), es), A) && AtRest(Run(Init(), es))
  {
    es := [Spawn([], "a", false), Spawn(A, "b", false), Declare(A, Waiting)];
    ReachBothRun();
    assert Parent(B) == A && Parent(A) == [];
    es := ThenRunOver(es, 1, B);
    es := ThenRunOver(es, 0, A);
  }

  // ---------------------------------------------------------------- a signal fires for a queued record

  const X: Path := ["x"]
  const Y: Path := ["y"]
  const Z: Path := ["z"]

  /** Four agents hold all slots, a's child b is queued, a has reported that it
      waits for b, and the signal of b's record has fired. */
  function FullHouse(): Team {
    Team(Runtime(map[0 := R(X), 1 := R(Y), 2 := R(Z), 3 := R(A), 4 := Record(B, None, true)], [4], {0, 1, 2, 3}, 4, 5, {0, 1, 2, 3, 4}, {},
                 Logged(5), []),
         map[X := Agent(0, None, []), Y := Agent(1, None, []), Z := Agent(2, None, []),
             A := Agent(3, Some(Waiting), []), B := Agent(4, None, [])], {}, {})
  }

  lemma ReachFullHouse() returns (es: seq<Event>)
    ensures Run(Init(), es) == FullHouse()
  {
    es := ReachTwo();
    es := FillHouse(es);
    DeclareInFullHouse();
    es := Then(es, Declare(A, Waiting));
    es := Then(es, SignalFires(4));
  }

  lemma DeclareInFullHouse()
    ensures Step(QueuedChild(), Declare(A, Waiting)) == QueuedChild().(agents := FullHouse().agents)
    ensures Step(QueuedChild().(agents := FullHouse().agents), SignalFires(4)) == FullHouse()
  {
    assert Parent(B) == A && StatusOf(QueuedChild(), B).Queued?;
    assert IsChild(B, A) && HasPendingChild(QueuedChild(), A);
  }

  /** x and y run. */
  function Two(): Team {
    Team(Runtime(map[0 := R(X), 1 := R(Y)], [], {0, 1}, 2, 2, {0, 1}, {}, Logged(2), []),
         map[X := Agent(0, None, []), Y := Agent(1, None, [])], {}, {})
  }

  lemma ReachTwo() returns (es: seq<Event>)
    ensures Run(Init(), es) == Two()
  {
    es := [Spawn([], "x", false)];
    RunOne(Init(), es[0]);
    assert [] + ["x"] == X && [] + ["y"] == Y;
    assert Run(Init(), es) == Team(Runtime(map[0 := R(X)], [], {0}, 1, 1, {0}, {}, Logged(1), []), map[X := Agent(0, None, [])], {}, {});
    es := Then(es, Spawn([], "y", false));
  }

  lemma Then(es: seq<Event>, e: Event) returns (fs: seq<Event>)
    ensures fs == es + [e] && Run(Init(), fs) == Step(Run(Init(), es), e)
  {
    fs := es + [e];
    Next(es, e);
  }

  /** Four agents hold all slots and a's child b is queued. */
  function QueuedChild(): Team {
    Team(Runtime(map[0 := R(X), 1 := R(Y), 2 := R(Z), 3 := R(A), 4 := R(B)], [4], {0, 1, 2, 3}, 4, 5, {0, 1, 2, 3, 4}, {},
                 Logged(5), []),
         map[X := Agent(0, None, []), Y := Agent(1, None, []), Z := Agent(2, None, []),
             A := Agent(3, None, []), B := Agent(4, None, [])], {}, {})
  }

  /** x, y and z run. */
  function Three(): Team {
    Team(Runtime(map[0 := R(X), 1 := R(Y), 2 := R(Z)], [], {0, 1, 2}, 3, 3, {0, 1, 2}, {}, Logged(3), []),
         map[X := Agent(0, None, []), Y := Agent(1, None, []), Z := Agent(2, None, [])], {}, {})
  }

  /** x, y, z and a run. */
  function Four(): Team {
    Team(Runtime(map[0 := R(X), 1 := R(Y), 2 := R(Z), 3 := R(A)], [], {0, 1, 2, 3}, 4, 4, {0, 1, 2, 3}, {}, Logged(4), []),
         map[X := Agent(0, None, []), Y := Agent(1, None, []), Z := Agent(2, None, []), A := Agent(3, None, [])], {}, {})
  }

  lemma SpawnZ()
    ensures Step(Two(), Spawn([], "z", false)) == Three()
  {
    assert [] + ["z"] == Z;
  }

  lemma SpawnA()
    ensures Step(Three(), Spawn([], "a", false)) == Four()
  {
    assert [] + ["a"] == A;
  }

  lemma SpawnB()
    ensures Step(Four(), Spawn(A, "b", false)) == QueuedChild()
  {
    assert A + ["b"] == B;
    assert Step(Four(), Spawn(A, "b", false)).rt.log == QueuedChild().rt.log;
  }

  lemma FillHouse(es: seq<Event>) returns (fs: seq<Event>)
    requires Run(Init(), es) == Two()
    ensures Run(Init(), fs) == QueuedChild()
  {
    SpawnZ();
    fs := Then(es, Spawn([], "z", false));
    SpawnA();
    fs := Then(fs, Spawn([], "a", false));
    SpawnB();
    fs := Then(fs, Spawn(A, "b", false));
  }

  /** The record is skipped when its turn comes and never finished: a waits
      for ever for a child that no one will run. */
  lemma QueuedAbortStalls() returns (es: seq<Event>)
    ensures IsWaiting(Run(Init(), es), A) && AtRest(Run(Init(), es))
    ensures B in Run(Init(), es).agents && StatusOf(Run(Init(), es), B).Running?
  {
    es := ReachFullHouse();
    es := OtherRunsEnd(es);
    assert Parent(A) == [];
    es := ThenRunOver(es, 3, A);
  }

  /** The other three agents end; the slot of the first passes b by. */
  lemma OtherRunsEnd(es: seq<Event>) returns (fs: seq<Event>)
    requires Run(Init(), es) == FullHouse()
    ensures var s := Run(Init(), fs);
      && s.agents == FullHouse().agents && s.deferred == {} && s.delivered == {}
      && s.rt.records == map[0 := D(X), 1 := D(Y), 2 := D(Z), 3 := R(A), 4 := Record(B, None, true)]
      && s.rt.queue == [] && s.rt.running == {3} && s.rt.inflight == {} && 3 in s.rt.handlers
  {
    assert Parent(X) == [] && Parent(Y) == [] && Parent(Z) == [];
    fs := ThenRunOver(es, 0, X);
    fs := ThenRunOver(fs, 1, Y);
    fs := ThenRunOver(fs, 2, Z);
  }

  // ---------------------------------------------------------------- a follow-up with an aborted signal

  const C: Path := ["a", "b", "c"]

  /** a waits for b, which waits for c, which runs. */
  function Chain(): Team {
    Team(Runtime(map[0 := R(A), 1 := R(B), 2 := R(C)], [], {0, 1, 2}, 3, 3, {0, 1, 2}, {},
                 Logged(3), []),
         map[A := Agent(0, Some(Waiting), []), B := Agent(1, Some(Waiting), []), C := Agent(2, Some(Dropped), [])], {}, {})
  }

  /** The same before b and c have reported. */
  function ChainRuns(): Team {
    Chain().(agents := map[A := Agent(0, Some(Waiting), []), B := Agent(1, None, []), C := Agent(2, None, [])])
  }

  lemma SpawnC()
    ensures Step(BothRun(), Spawn(B, "c", false)) == ChainRuns()
  {
    assert B + ["c"] == C;
  }

  lemma DeclareInChain()
    ensures Step(Step(ChainRuns(), Declare(B, Waiting)), Declare(C, Dropped)) == Chain()
  {
    assert Parent(C) == B;
    assert IsChild(C, B) && StatusOf(ChainRuns(), C).Running?;
    assert HasPendingChild(ChainRuns(), B);
    assert Step(ChainRuns(), Declare(B, Waiting)).agents == map[A := Agent(0, Some(Waiting), []), B := Agent(1, Some(Waiting), []), C := Agent(2, None, [])];
  }

  lemma ReachChain() returns (es: seq<Event>)
    ensures Run(Init(), es) == Chain()
  {
    ReachBothRun();
    SpawnC();
    es := Then([Spawn([], "a", false), Spawn(A, "b", false), Declare(A, Waiting)], Spawn(B, "c", false));
    DeclareInChain();
    es := Then(es, Declare(B, Waiting));
    es := Then(es, Declare(C, Dropped));
  }

  /** The aborted follow-up wipes b's report without waking it; c's `dropped`
      result is then kept from b, and a waits for a b that nobody wakes. */
  lemma AbortedFollowUpStalls() returns (es: seq<Event>)
    ensures IsWaiting(Run(Init(), es), A) && AtRest(Run(Init(), es))
  {
    es := ReachTwoWait();
    assert Parent(A) == [] && Parent(B) == A && Parent(C) == B;
    es := Then(es, FollowUp([], B, true));
    es := ThenRunOver(es, 2, C);
  }

  /** a and b have ended their runs and wait; c runs. */
  lemma ReachTwoWait() returns (es: seq<Event>)
    ensures var s := Run(Init(), es);
      && s.agents == Chain().agents && s.deferred == {} && s.delivered == {}
      && s.rt.records == map[0 := D(A), 1 := D(B), 2 := R(C)]
      && s.rt.queue == [] && s.rt.running == {2} && s.rt.inflight == {} && s.rt.handlers == {2}
  {
    es := ReachChain();
    assert Parent(A) == [] && Parent(B) == A && Parent(C) == B;
    es := ThenRunOver(es, 0, A);
    es := ThenRunOver(es, 1, B);
  }
}
