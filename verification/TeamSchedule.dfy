/** Every step of a team is a list of calls to the runtime, so what holds of the
    queue over every run of calls holds over every run of a team.
 */
module TeamSchedule {
  import opened Subagents
  import opened SchedulerOrder
  import opened TeamCoordination

  lemma OneCall(rt: Runtime, c: Call)
    ensures After(rt, [c]) == Apply(rt, c) && (AllPossible(rt, [c]) <==> Possible(rt, c))
  {
    assert [c][1..] == [];
  }

  lemma TwoCalls(rt: Runtime, c: Call, d: Call)
    ensures After(rt, [c, d]) == Apply(Apply(rt, c), d)
    ensures AllPossible(rt, [c, d]) <==> Possible(rt, c) && Possible(Apply(rt, c), d)
  {
    assert [c, d][1..] == [d];
    OneCall(Apply(rt, c), d);
  }

  lemma {:induction false} AfterConcat(rt: Runtime, a: seq<Call>, b: seq<Call>)
    ensures After(rt, a + b) == After(After(rt, a), b)
    ensures AllPossible(rt, a + b) <==> AllPossible(rt, a) && AllPossible(After(rt, a), b)
    decreases |a|
  {
    if a == [] {
      assert a + b == b;
    } else {
      assert (a + b)[1..] == a[1..] + b && (a + b)[0] == a[0];
      AfterConcat(Apply(rt, a[0]), a[1..], b);
    }
  }

  // ---------------------------------------------------------------- the calls of a step

  /** The step gives a slot back. */
  predicate Releases(s: Team, e: Event) {
    e.SlotReleased? && Step(s, e).rt != s.rt
  }

  /** The step is a follow-up to an agent whose run is queued under this id. */
  predicate Promotes(s: Team, e: Event, id: nat) {
    e.FollowUp? && e.target in s.agents && StatusOf(s, e.target).Queued? && s.agents[e.target].record == id
  }

  /** Calls that neither promote nor release, and submit nothing that is queued. */
  predicate Plain(rt: Runtime, cs: seq<Call>) {
    forall c :: c in cs ==> !c.Promote? && !c.Settle? && (c.Submit? ==> c.id !in rt.queue)
  }

  /** Promotions and releases are those of the team's own events. */
  predicate Tame(s: Team, e: Event, cs: seq<Call>) {
    || (Plain(s.rt, cs) && !Releases(s, e))
    || (Releases(s, e) && cs == [Settle(e.id)])
    || (|cs| == 1 && cs[0].Promote? && Promotes(s, e, cs[0].id))
  }

  /** A new run: a record is made and submitted. */
  lemma NewRunCalls(rt: Runtime, p: Path) returns (cs: seq<Call>)
    requires RuntimeOk(rt)
    ensures AllPossible(rt, cs) && After(rt, cs) == Schedule(CreateRecord(rt, p), rt.nextId) && Plain(rt, cs)
  {
    cs := [Create(p), Submit(rt.nextId)];
    CreateScheduler(rt, p);
    TwoCalls(rt, Create(p), Submit(rt.nextId));
  }

  lemma DeliversCalls(s: Team, id: nat) returns (cs: seq<Call>)
    requires RuntimeOk(s.rt)
    ensures AllPossible(s.rt, cs) && DoHandlerDelivers(s, id).rt == After(s.rt, cs) && Plain(s.rt, cs)
  {
    cs := [];
    if id in s.rt.inflight && id in s.rt.records && s.rt.records[id].path != [] {
      var p := s.rt.records[id].path;
      var woken := s.(rt := s.rt.(inflight := s.rt.inflight - {id}));
      OneCall(s.rt, Handle(id));
      ApplyKeeps(s.rt, Handle(id));
      cs := [Handle(id)];
      if DoHandlerDelivers(s, id).rt != woken.rt {
        var more := NewRunCalls(woken.rt, Parent(p));
        AfterConcat(s.rt, cs, more);
        cs := cs + more;
      }
    }
  }

  lemma FollowsUpCalls(s: Team, id: nat) returns (cs: seq<Call>)
    requires RuntimeOk(s.rt)
    ensures AllPossible(s.rt, cs) && DoHandlerFollowsUp(s, id).rt == After(s.rt, cs) && Plain(s.rt, cs)
  {
    cs := [];
    if DoHandlerFollowsUp(s, id).rt != s.rt {
      cs := NewRunCalls(s.rt, s.rt.records[id].path);
    }
  }

  lemma FollowUpCalls(s: Team, sender: Path, target: Path, signalAborted: bool) returns (cs: seq<Call>)
    requires RuntimeOk(s.rt)
    ensures AllPossible(s.rt, cs) && DoFollowUp(s, sender, target, signalAborted).rt == After(s.rt, cs)
    ensures Tame(s, FollowUp(sender, target, signalAborted), cs)
  {
    cs := [];
    if target in s.agents {
      if StatusOf(s, target).Queued? {
        cs := [Promote(s.agents[target].record)];
        OneCall(s.rt, cs[0]);
      } else if CanReceive(StatusOf(s, target)) && !signalAborted {
        cs := NewRunCalls(s.rt, target);
      }
    }
  }

  lemma SpawnCalls(s: Team, sender: Path, name: string, deferStart: bool) returns (cs: seq<Call>)
    requires RuntimeOk(s.rt)
    ensures AllPossible(s.rt, cs) && DoSpawn(s, sender, name, deferStart).rt == After(s.rt, cs) && Plain(s.rt, cs)
  {
    cs := [];
    if DoSpawn(s, sender, name, deferStart) != s {
      if deferStart {
        cs := [Create(sender + [name])];
        OneCall(s.rt, cs[0]);
      } else {
        cs := NewRunCalls(s.rt, sender + [name]);
      }
    }
  }

  lemma MemberCalls(s: Team, e: Event) returns (cs: seq<Call>)
    requires RuntimeOk(s.rt) && DeferredApart(s)
    requires e.StartDeferred? || e.RollBack? || e.Interrupt? || e.RunEnds? || e.SlotReleased? || e.SignalFires?
    ensures AllPossible(s.rt, cs) && Step(s, e).rt == After(s.rt, cs) && Tame(s, e, cs)
  {
    cs := [];
    if Step(s, e).rt != s.rt {
      match e
      case StartDeferred(p) => cs := [Submit(s.agents[p].record)];
      case RollBack(p) => cs := [Drop(s.agents[p].record)];
      case Interrupt(p) => cs := [Stop(s.agents[p].record)];
      case RunEnds(id, ok) => cs := [End(id, RunStatus(s.rt, id, ok))];
      case SlotReleased(id) => cs := [Settle(id)];
      case SignalFires(id) => cs := [Fire(id)];
      OneCall(s.rt, cs[0]);
    }
  }

  /** Whatever a team does in a step is a list of possible calls, with its own
      follow-ups as the promotions and its own released slots as the releases. */
  lemma StepIsCalls(s: Team, e: Event) returns (cs: seq<Call>)
    requires RuntimeOk(s.rt) && DeferredApart(s)
    ensures AllPossible(s.rt, cs) && Step(s, e).rt == After(s.rt, cs) && Tame(s, e, cs)
  {
    match e
    case Spawn(sender, name, deferStart) => cs := SpawnCalls(s, sender, name, deferStart);
    case HandlerDelivers(id) => cs := DeliversCalls(s, id);
    case HandlerFollowsUp(id) => cs := FollowsUpCalls(s, id);
    case Declare(_, _) => cs := [];
    case FollowUp(sender, target, signalAborted) => cs := FollowUpCalls(s, sender, target, signalAborted);
    case _ => cs := MemberCalls(s, e);
  }

  /** Every run of a team, disciplined or not, is a run of possible calls. */
  lemma {:induction false} RunIsCalls(s: Team, es: seq<Event>) returns (cs: seq<Call>)
    requires RuntimeOk(s.rt) && DeferredApart(s)
    ensures AllPossible(s.rt, cs) && Run(s, es).rt == After(s.rt, cs)
    decreases |es|
  {
    cs := [];
    if es != [] {
      StepKeepsRuntime(s, es[0]);
      StepKeepsApart(s, es[0]);
      var first := StepIsCalls(s, es[0]);
      var rest := RunIsCalls(Step(s, es[0]), es[1..]);
      AfterConcat(s.rt, first, rest);
      cs := first + rest;
    }
  }

  // ---------------------------------------------------------------- the queue over runs of a team

  lemma ApplyQueues(rt: Runtime, c: Call, a: nat)
    requires RuntimeOk(rt) && Possible(rt, c) && a in Apply(rt, c).queue
    ensures a in rt.queue || c == Submit(a)
  {
    match c
    case Settle(id) => ReleaseStartsFirstWanted(rt, id);
    case Promote(id) => PrioritizeScheduler(rt, id);
    case Stop(id) =>
      if Unfinished(rt, id) && id in rt.queue {
        RemovedMembers(rt.queue, id);
      }
    case _ =>
  }

  lemma {:induction false} StaysAway(rt: Runtime, cs: seq<Call>, a: nat)
    requires RuntimeOk(rt) && AllPossible(rt, cs) && Submit(a) !in cs && a in After(rt, cs).queue
    ensures StaysQueued(rt, cs, a)
    decreases |cs|
  {
    if cs != [] {
      assert cs[0] in cs;
      ApplyKeeps(rt, cs[0]);
      StaysAway(Apply(rt, cs[0]), cs[1..], a);
      ApplyQueues(rt, cs[0], a);
    }
  }

  lemma {:induction false} StartedCovers(rt: Runtime, cs: seq<Call>)
    ensures After(rt, cs).running - rt.running <= StartedDuring(rt, cs)
    decreases |cs|
  {
    if cs != [] {
      StartedCovers(Apply(rt, cs[0]), cs[1..]);
    }
  }

  lemma {:induction false} PlainPassesNone(rt: Runtime, cs: seq<Call>, a: nat)
    requires forall c :: c in cs ==> !c.Promote? && !c.Settle?
    ensures TimesPassed(rt, cs, a) == 0 && Settles(cs) == 0
    decreases |cs|
  {
    if cs != [] {
      assert cs[0] in cs;
      PlainPassesNone(Apply(rt, cs[0]), cs[1..], a);
    }
  }

  /** The step promotes a record past this one. */
  predicate Overtakes(s: Team, e: Event, a: nat) {
    e.FollowUp? && e.target in s.agents && Promotes(s, e, s.agents[e.target].record)
    && Passes(s.rt, Promote(s.agents[e.target].record), a)
  }

  lemma TameCounts(s: Team, e: Event, cs: seq<Call>, a: nat)
    requires Tame(s, e, cs)
    ensures Settles(cs) == if Releases(s, e) then 1 else 0
    ensures TimesPassed(s.rt, cs, a) <= if Overtakes(s, e, a) then 1 else 0
    ensures a in s.rt.queue ==> Submit(a) !in cs
    ensures forall b :: !Promotes(s, e, b) ==> Promote(b) !in cs
  {
    if Plain(s.rt, cs) {
      PlainPassesNone(s.rt, cs, a);
    } else {
      assert cs[1..] == [];
    }
  }

  /** One step of a team: while a stays queued, b does not start and stays behind it
      unless it is promoted, and a moves up with every slot given back. */
  lemma TeamStepInOrder(s: Team, e: Event, a: nat)
    requires RuntimeOk(s.rt) && DeferredApart(s) && a in s.rt.queue && a in Step(s, e).rt.queue
    ensures forall b :: Before(s.rt.queue, a, b) && !Promotes(s, e, b) ==>
      b !in Step(s, e).rt.running - s.rt.running && Before(Step(s, e).rt.queue, a, b)
    ensures IndexOf(Step(s, e).rt.queue, a) + (if Releases(s, e) then 1 else 0)
         <= IndexOf(s.rt.queue, a) + (if Overtakes(s, e, a) then 1 else 0)
  {
    var cs := StepIsCalls(s, e);
    TameCounts(s, e, cs, a);
    StaysAway(s.rt, cs, a);
    StartedCovers(s.rt, cs);
    QueuedNotForLong(s.rt, cs, a);
    forall b | Before(s.rt.queue, a, b) && !Promotes(s, e, b)
      ensures b !in Step(s, e).rt.running - s.rt.running && Before(Step(s, e).rt.queue, a, b)
    {
      FirstComeFirstServed(s.rt, cs, a, b);
    }
  }

  /** The record is queued in every state of the run. */
  predicate QueuedThroughout(s: Team, es: seq<Event>, a: nat)
    decreases |es|
  {
    a in s.rt.queue && (es == [] || QueuedThroughout(Step(s, es[0]), es[1..], a))
  }

  /** No follow-up of the run promotes the record. */
  predicate NeverPromoted(s: Team, es: seq<Event>, b: nat)
    decreases |es|
  {
    es == [] || (!Promotes(s, es[0], b) && NeverPromoted(Step(s, es[0]), es[1..], b))
  }

  /** The records that get a slot during the run. */
  function StartedIn(s: Team, es: seq<Event>): set<nat>
    decreases |es|
  {
    if es == [] then {} else (Step(s, es[0]).rt.running - s.rt.running) + StartedIn(Step(s, es[0]), es[1..])
  }

  function SlotsReleased(s: Team, es: seq<Event>): nat
    decreases |es|
  {
    if es == [] then 0 else (if Releases(s, es[0]) then 1 else 0) + SlotsReleased(Step(s, es[0]), es[1..])
  }

  function TimesOvertaken(s: Team, es: seq<Event>, a: nat): nat
    decreases |es|
  {
    if es == [] then 0 else (if Overtakes(s, es[0], a) then 1 else 0) + TimesOvertaken(Step(s, es[0]), es[1..], a)
  }

  lemma {:induction false} TeamRunInOrder(s: Team, es: seq<Event>, a: nat, b: nat)
    requires RuntimeOk(s.rt) && DeferredApart(s) && QueuedThroughout(s, es, a) && Before(s.rt.queue, a, b) && NeverPromoted(s, es, b)
    ensures b !in StartedIn(s, es)
    decreases |es|
  {
    if es != [] {
      StepKeepsRuntime(s, es[0]);
      StepKeepsApart(s, es[0]);
      TeamStepInOrder(s, es[0], a);
      TeamRunInOrder(Step(s, es[0]), es[1..], a, b);
    }
  }

  lemma {:induction false} TeamRunMovesUp(s: Team, es: seq<Event>, a: nat)
    requires RuntimeOk(s.rt) && DeferredApart(s) && QueuedThroughout(s, es, a)
    ensures SlotsReleased(s, es) <= IndexOf(s.rt.queue, a) + TimesOvertaken(s, es, a)
    decreases |es|
  {
    if es != [] {
      StepKeepsRuntime(s, es[0]);
      StepKeepsApart(s, es[0]);
      TeamStepInOrder(s, es[0], a);
      TeamRunMovesUp(Step(s, es[0]), es[1..], a);
    }
  }

  /** From any state of any run of a team, on any further run in all of whose states
      a is queued: no record that stands behind a or is not queued yet starts,
      unless a follow-up promotes it. */
  lemma TeamQueueIsServedInOrder(es: seq<Event>, more: seq<Event>, a: nat, b: nat)
    requires var s := Run(Init(), es); QueuedThroughout(s, more, a) && Before(s.rt.queue, a, b) && NeverPromoted(s, more, b)
    ensures b !in StartedIn(Run(Init(), es), more)
  {
    RuntimeAlwaysRight(Init(), es);
    ApartAlways(Init(), es);
    TeamRunInOrder(Run(Init(), es), more, a, b);
  }

  /** And the team gives back no more slots meanwhile than records were ahead of a,
      plus one for each follow-up that promoted a record past it. */
  lemma TeamQueuedNotForLong(es: seq<Event>, more: seq<Event>, a: nat)
    requires QueuedThroughout(Run(Init(), es), more, a)
    ensures var s := Run(Init(), es); SlotsReleased(s, more) <= IndexOf(s.rt.queue, a) + TimesOvertaken(s, more, a)
  {
    RuntimeAlwaysRight(Init(), es);
    ApartAlways(Init(), es);
    TeamRunMovesUp(Run(Init(), es), more, a);
  }

  lemma {:induction false} ApartAlways(s: Team, es: seq<Event>)
    requires RuntimeOk(s.rt) && DeferredApart(s)
    ensures DeferredApart(Run(s, es))
    decreases |es|
  {
    if es != [] {
      StepKeepsRuntime(s, es[0]);
      StepKeepsApart(s, es[0]);
      ApartAlways(Step(s, es[0]), es[1..]);
    }
  }
}
