/** The team coordinator on top of the subagent runtime: agents in a tree, each
    with a current run record, a declared report and queued follow-ups.  A
    coordinator whose run ended with a `waiting` report is resumed by the results
    of its children.

    A handler of the program that suspends is split where it suspends: a finished
    run first waits for its message flush (`Runtime.inflight`), then delivers its
    result, then waits again (`Team.delivered`) and finally takes its next
    follow-up.  Anything may happen in between.
 */
module TeamCoordination {
  import opened Subagents

  datatype ReportState = Ready | Waiting | Blocked | ReportFailed | Dropped

  datatype Agent = Agent(record: nat, report: Option<ReportState>, pending: seq<Path>)

  datatype Status = Queued | Running | Idle | WaitingResult | WaitingDecision | HasFailed | WasCancelled

  /** `deferred` are the records of team members created but not yet scheduled. */
  datatype Team = Team(rt: Runtime, agents: map<Path, Agent>, delivered: set<nat>, deferred: set<nat>)

  datatype Event =
    | Spawn(sender: Path, name: string, deferStart: bool)
    | StartDeferred(path: Path)
    | RollBack(path: Path)
    | RunEnds(id: nat, ok: bool)
    | SlotReleased(id: nat)
    | HandlerDelivers(id: nat)
    | HandlerFollowsUp(id: nat)
    | Declare(path: Path, state: ReportState)
    | FollowUp(sender: Path, target: Path, signalAborted: bool)
    | Interrupt(target: Path)
    | SignalFires(id: nat)

  // ---------------------------------------------------------------- reading the state

  function Init(): Team {
    Team(InitRuntime(), map[], {}, {})
  }

  function Parent(p: Path): Path
    requires p != []
  {
    p[..|p| - 1]
  }

  predicate IsChild(c: Path, p: Path) {
    c != [] && Parent(c) == p
  }

  /** The current record of an agent; every agent of a reachable state has one. */
  function RecordOf(s: Team, p: Path): Record {
    if p in s.agents && s.agents[p].record in s.rt.records
    then s.rt.records[s.agents[p].record]
    else Record(p, Some(Cancelled), true)
  }

  function StatusOf(s: Team, p: Path): Status
    requires p in s.agents
  {
    match RecordOf(s, p).terminal
    case None => if s.agents[p].record in s.rt.queue then Queued else Running
    case Some(Failed) => HasFailed
    case Some(Cancelled) => WasCancelled
    case Some(Completed) =>
      match s.agents[p].report
      case Some(Blocked) => WaitingDecision
      case Some(Waiting) => WaitingResult
      case _ => Idle
  }

  predicate CanReceive(st: Status) {
    st.Idle? || st.WaitingResult? || st.WaitingDecision?
  }

  predicate HasPendingChild(s: Team, p: Path) {
    exists c :: c in s.agents && IsChild(c, p) && (StatusOf(s, c).Running? || StatusOf(s, c).Queued? || StatusOf(s, c).WaitingResult?)
  }

  // ---------------------------------------------------------------- steps

  /** Give a finished agent a new run of the same child session. */
  function Reactivate(s: Team, p: Path): Team
    requires p in s.agents
  {
    var id := s.rt.nextId;
    s.(rt := Schedule(CreateRecord(s.rt, p), id),
       agents := s.agents[p := s.agents[p].(record := id, report := None)])
  }

  function DoSpawn(s: Team, sender: Path, name: string, deferStart: bool): Team {
    var p := sender + [name];
    if p in s.agents || (sender != [] && (sender !in s.agents || s.agents[sender].record in s.deferred || deferStart)) then s
    else
      var id := s.rt.nextId;
      var made := CreateRecord(s.rt, p);
      var grown := s.(agents := s.agents[p := Agent(id, None, [])]);
      if deferStart then grown.(rt := made, deferred := s.deferred + {id}) else grown.(rt := Schedule(made, id))
  }

  function DoStartDeferred(s: Team, p: Path): Team {
    if p !in s.agents || s.agents[p].record !in s.deferred then s
    else s.(rt := Schedule(s.rt, s.agents[p].record), deferred := s.deferred - {s.agents[p].record})
  }

  function DoRollBack(s: Team, p: Path): Team {
    if p !in s.agents || s.agents[p].record !in s.deferred then s
    else s.(rt := Discard(s.rt, s.agents[p].record),
            agents := s.agents - {p},
            deferred := s.deferred - {s.agents[p].record})
  }

  function DoRunEnds(s: Team, id: nat, ok: bool): Team {
    if id !in s.rt.running then s else s.(rt := Finish(s.rt, id, RunStatus(s.rt, id, ok)))
  }

  function DoSlotReleased(s: Team, id: nat): Team {
    if id !in s.rt.running || Unfinished(s.rt, id) then s else s.(rt := ReleaseSlot(s.rt, id))
  }

  /** A completed run is kept quiet when it reports that it waits itself, or
      that there is nothing to act on and its parent is not waiting for it. */
  predicate Quiet(s: Team, p: Path)
    requires p in s.agents && p != []
  {
    || s.agents[p].report == Some(Waiting)
    || (s.agents[p].report == Some(Dropped) && !(Parent(p) in s.agents && s.agents[Parent(p)].report == Some(Waiting)))
  }

  function DeliverFinalAnswer(s: Team, p: Path): Team
    requires p != []
  {
    var parent := Parent(p);
    if parent !in s.agents then s
    else if CanReceive(StatusOf(s, parent)) then Reactivate(s, parent)
    else if StatusOf(s, parent).Queued? then s.(agents := s.agents[parent := s.agents[parent].(pending := s.agents[parent].pending + [p])])
    else s
  }

  function DoHandlerDelivers(s: Team, id: nat): Team {
    if id !in s.rt.inflight || id !in s.rt.records || s.rt.records[id].path == [] then s
    else
      var p := s.rt.records[id].path;
      var woken := s.(rt := s.rt.(inflight := s.rt.inflight - {id}));
      if p !in s.agents then woken
      else
        var on := woken.(delivered := s.delivered + {id});
        if s.rt.records[id].terminal == Some(Completed) && Quiet(s, p) then on else DeliverFinalAnswer(on, p)
  }

  /** A completed run takes its next follow-up; if the agent cannot be
      reactivated any more that follow-up is dropped. */
  function DoHandlerFollowsUp(s: Team, id: nat): Team {
    if id !in s.delivered || id !in s.rt.records then s
    else
      var p := s.rt.records[id].path;
      var done := s.(delivered := s.delivered - {id});
      if p !in s.agents then done
      else if s.rt.records[id].terminal != Some(Completed) then done.(agents := s.agents[p := s.agents[p].(pending := [])])
      else if s.agents[p].pending == [] then done
      else
        var taken := done.(agents := s.agents[p := s.agents[p].(pending := s.agents[p].pending[1..])]);
        if CanReceive(StatusOf(taken, p)) then Reactivate(taken, p) else taken
  }

  /** `team_report`, called from inside the agent's own run. */
  function DoDeclare(s: Team, p: Path, state: ReportState): Team {
    if p !in s.agents || s.agents[p].record !in s.rt.running || !Unfinished(s.rt, s.agents[p].record) then s
    else if state == Waiting && !HasPendingChild(s, p) then s
    else s.(agents := s.agents[p := s.agents[p].(report := Some(state))])
  }

  /** `team_followup_task`.  An aborted signal is noticed only after the report was cleared. */
  function DoFollowUp(s: Team, sender: Path, target: Path, signalAborted: bool): Team {
    if target !in s.agents then s
    else if StatusOf(s, target).Queued? then
      s.(rt := Prioritize(s.rt, s.agents[target].record),
         agents := s.agents[target := s.agents[target].(pending := s.agents[target].pending + [sender])])
    else if !CanReceive(StatusOf(s, target)) then s
    else if signalAborted then s.(agents := s.agents[target := s.agents[target].(report := None)])
    else Reactivate(s, target)
  }

  function DoInterrupt(s: Team, target: Path): Team {
    if target !in s.agents then s else s.(rt := Cancel(s.rt, s.agents[target].record))
  }

  function Step(s: Team, e: Event): Team {
    match e
    case Spawn(sender, name, deferStart) => DoSpawn(s, sender, name, deferStart)
    case StartDeferred(p) => DoStartDeferred(s, p)
    case RollBack(p) => DoRollBack(s, p)
    case RunEnds(id, ok) => DoRunEnds(s, id, ok)
    case SlotReleased(id) => DoSlotReleased(s, id)
    case HandlerDelivers(id) => DoHandlerDelivers(s, id)
    case HandlerFollowsUp(id) => DoHandlerFollowsUp(s, id)
    case Declare(p, state) => DoDeclare(s, p, state)
    case FollowUp(sender, target, signalAborted) => DoFollowUp(s, sender, target, signalAborted)
    case Interrupt(target) => DoInterrupt(s, target)
    case SignalFires(id) => s.(rt := RequestCancel(s.rt, id))
  }

  function Run(s: Team, es: seq<Event>): Team
    decreases |es|
  {
    if es == [] then s else Run(Step(s, es[0]), es[1..])
  }

  // ---------------------------------------------------------------- invariant: the tree and its records

  ghost predicate TreeOk(s: Team) {
    && [] !in s.agents
    && (forall p :: p in s.agents && |p| > 1 ==> Parent(p) in s.agents)
    && (forall p :: p in s.agents ==> s.agents[p].record in s.rt.records && s.rt.records[s.agents[p].record].path == p)
    && (forall id :: Unfinished(s.rt, id) ==> s.rt.records[id].path in s.agents && s.agents[s.rt.records[id].path].record == id)
  }

  /** Every unfinished record runs, is queued, is a team member about to be
      scheduled, or was passed over in the queue because its signal had fired. */
  ghost predicate Placed(s: Team) {
    && (forall id :: Unfinished(s.rt, id) ==>
          id in s.rt.running || id in s.rt.queue || id in s.deferred || s.rt.records[id].cancelRequested)
    && (forall id :: id in s.rt.queue ==> Unfinished(s.rt, id))
  }

  /** A record that nothing will ever start or finish: its signal fired while it
      was queued, so it is or will be passed over. */
  predicate Doomed(s: Team, id: nat) {
    Unfinished(s.rt, id) && s.rt.records[id].cancelRequested && id !in s.rt.running && id !in s.deferred
  }

  ghost predicate DeferredOk(s: Team) {
    forall id :: id in s.deferred ==>
      && Unfinished(s.rt, id) && id !in s.rt.running && id !in s.rt.queue
      && |s.rt.records[id].path| == 1
      && forall p :: p in s.agents ==> !IsChild(p, s.rt.records[id].path)
  }

  /** Handlers under way belong to finished runs of agents still in the team,
      and only the current run of an agent can have ended badly. */
  ghost predicate HandlersUnderWay(s: Team) {
    && s.rt.inflight !! s.delivered
    && (forall id :: id in s.rt.inflight + s.delivered ==>
          && id in s.rt.records && !Unfinished(s.rt, id) && s.rt.records[id].path in s.agents
          && (s.agents[s.rt.records[id].path].record == id || s.rt.records[id].terminal == Some(Completed)))
    && (forall id :: Unfinished(s.rt, id) ==> id in s.rt.handlers)
  }

  /** A member not yet scheduled has never run, so none of its handlers is under way. */
  ghost predicate DeferredQuiet(s: Team) {
    forall d, x :: d in s.deferred && x in s.rt.inflight + s.delivered && d in s.rt.records && x in s.rt.records ==>
      s.rt.records[x].path != s.rt.records[d].path
  }

  ghost predicate Sound(s: Team) {
    SchedulerOk(s.rt) && TreeOk(s) && Placed(s) && DeferredOk(s) && HandlersUnderWay(s) && DeferredQuiet(s)
  }

  // ---------------------------------------------------------------- invariant: every wait is covered

  /** An agent whose status is waiting_result. */
  predicate IsWaiting(s: Team, p: Path)
    ensures IsWaiting(s, p) <==> p in s.agents && StatusOf(s, p).WaitingResult?
  {
    p in s.agents && RecordOf(s, p).terminal == Some(Completed) && s.agents[p].report == Some(Waiting)
  }

  /** A child that is certain to wake a waiting parent: its run goes on, its
      result is on the way, or it waits for children of its own. */
  predicate Owes(s: Team, c: Path) {
    c in s.agents && (
    || (RecordOf(s, c).terminal.None? && !Doomed(s, s.agents[c].record))
    || s.agents[c].record in s.rt.inflight || IsWaiting(s, c))
  }

  /** An agent about to wake itself with a follow-up it was given while queued. */
  predicate OwesItself(s: Team, p: Path) {
    p in s.agents && s.agents[p].pending != [] && s.agents[p].record in s.rt.inflight + s.delivered
  }

  /** Something next to the waiting agent still owes it a wake-up. */
  predicate Covered(s: Team, p: Path) {
    OwesItself(s, p) || exists c :: c in s.agents && IsChild(c, p) && Owes(s, c)
  }

  ghost predicate EveryWaitCovered(s: Team) {
    forall p :: IsWaiting(s, p) ==> Covered(s, p)
  }

  ghost predicate Good(s: Team) {
    RuntimeOk(s.rt) && Sound(s) && EveryWaitCovered(s)
  }

  // ---------------------------------------------------------------- steps that take nothing away

  /** The step leaves every debt standing and makes nobody wait. */
  ghost predicate Harmless(s: Team, t: Team) {
    && (forall c :: Owes(s, c) ==> Owes(t, c))
    && (forall p :: IsWaiting(t, p) ==> IsWaiting(s, p) && (OwesItself(s, p) ==> OwesItself(t, p)))
  }

  lemma HarmlessCover(s: Team, t: Team, p: Path)
    requires Harmless(s, t) && IsWaiting(t, p) && Covered(s, p)
    ensures Covered(t, p)
  {
    if !OwesItself(s, p) {
      var c :| c in s.agents && IsChild(c, p) && Owes(s, c);
      assert Owes(t, c);
    }
  }

  lemma HarmlessKeeps(s: Team, t: Team)
    requires EveryWaitCovered(s) && Harmless(s, t)
    ensures EveryWaitCovered(t)
  {
    forall p | IsWaiting(t, p) ensures Covered(t, p) {
      HarmlessCover(s, t, p);
    }
  }

  /** A record just created is scheduled: it runs or it is queued, and nothing else changes. */
  lemma FreshSchedule(rt: Runtime, p: Path)
    requires SchedulerOk(rt)
    ensures var id := rt.nextId; var rt' := Schedule(CreateRecord(rt, p), id);
      && SchedulerOk(rt')
      && rt'.records == rt.records[id := Record(p, None, false)]
      && id !in rt.records
      && rt'.inflight == rt.inflight && rt'.handlers == rt.handlers + {id}
      && (|| (rt'.running == rt.running + {id} && rt'.queue == rt.queue)
          || (rt'.running == rt.running && rt'.queue == rt.queue + [id]))
  {
    CreateScheduler(rt, p);
    ScheduleScheduler(CreateRecord(rt, p), rt.nextId);
  }

  lemma FreshScheduleKeeps(rt: Runtime, p: Path)
    requires RuntimeOk(rt)
    ensures RuntimeOk(Schedule(CreateRecord(rt, p), rt.nextId))
  {
    CreateKeeps(rt, p);
    ScheduleKeeps(CreateRecord(rt, p), rt.nextId);
  }

  /** Agent p - new, or with a completed last run - gets a new run `id`. */
  ghost predicate NewRun(s: Team, t: Team, p: Path, id: nat) {
    && p != [] && (|p| > 1 ==> Parent(p) in s.agents)
    && (p in s.agents ==> RecordOf(s, p).terminal == Some(Completed))
    && id !in s.rt.records && t.rt.records == s.rt.records[id := Record(p, None, false)]
    && t.rt.inflight == s.rt.inflight && t.delivered == s.delivered && t.rt.handlers == s.rt.handlers + {id}
    && p in t.agents && t.agents[p].record == id && t.agents == s.agents[p := t.agents[p]]
    && (forall x :: x in t.rt.queue ==> x in s.rt.queue || x == id)
    && (forall x :: x in s.rt.queue ==> x in t.rt.queue)
    && s.rt.running <= t.rt.running <= s.rt.running + {id}
    && (t.deferred == s.deferred || (t.deferred == s.deferred + {id} && |p| == 1 && p !in s.agents))
    && (id in t.rt.queue || id in t.rt.running || id in t.deferred)
    && (id in t.deferred ==> id !in t.rt.queue && id !in t.rt.running)
    && (p !in s.agents ==> forall d :: d in s.deferred && d in s.rt.records ==> !IsChild(p, s.rt.records[d].path))
  }

  lemma NewRunTree(s: Team, t: Team, p: Path, id: nat)
    requires TreeOk(s) && NewRun(s, t, p, id)
    ensures TreeOk(t)
  {
  }

  lemma NewRunPlaced(s: Team, t: Team, p: Path, id: nat)
    requires Placed(s) && NewRun(s, t, p, id)
    ensures Placed(t)
  {
    assert forall x :: Unfinished(t.rt, x) <==> Unfinished(s.rt, x) || x == id;
  }

  lemma NewRunDeferred(s: Team, t: Team, p: Path, id: nat)
    requires TreeOk(s) && DeferredOk(s) && NewRun(s, t, p, id)
    ensures DeferredOk(t)
  {
    assert forall x :: x in s.rt.records ==> t.rt.records[x] == s.rt.records[x];
  }

  lemma NewRunQuiet(s: Team, t: Team, p: Path, id: nat)
    requires DeferredQuiet(s) && HandlersUnderWay(s) && DeferredOk(s) && NewRun(s, t, p, id)
    ensures DeferredQuiet(t)
  {
    forall d, x | d in t.deferred && x in t.rt.inflight + t.delivered && d in t.rt.records && x in t.rt.records
      ensures t.rt.records[x].path != t.rt.records[d].path
    {
      assert x in s.rt.inflight + s.delivered;
    }
  }

  lemma NewRunHandlers(s: Team, t: Team, p: Path, id: nat)
    requires TreeOk(s) && HandlersUnderWay(s) && NewRun(s, t, p, id)
    ensures HandlersUnderWay(t)
  {
    forall x | x in t.rt.inflight + t.delivered
      ensures x in t.rt.records && !Unfinished(t.rt, x) && t.rt.records[x].path in t.agents
      ensures t.agents[t.rt.records[x].path].record == x || t.rt.records[x].terminal == Some(Completed)
    {
      assert x in s.rt.inflight + s.delivered;
    }
  }

  /** An agent whose run, report and handlers are left alone owes what it owed. */
  lemma SameAgent(s: Team, t: Team, q: Path)
    requires q in s.agents && q in t.agents
    requires t.agents[q].record == s.agents[q].record && t.agents[q].report == s.agents[q].report
    requires RecordOf(t, q).terminal == RecordOf(s, q).terminal
    requires s.rt.inflight <= t.rt.inflight && (Doomed(t, t.agents[q].record) ==> Doomed(s, s.agents[q].record))
    ensures Owes(s, q) ==> Owes(t, q)
    ensures IsWaiting(t, q) <==> IsWaiting(s, q)
  {
  }

  lemma NewRunHarmless(s: Team, t: Team, p: Path, id: nat)
    requires TreeOk(s) && NewRun(s, t, p, id)
    ensures Harmless(s, t) && !IsWaiting(t, p)
  {
    assert RecordOf(t, p).terminal.None?;
    forall q | q in s.agents && q != p
      ensures Owes(s, q) ==> Owes(t, q)
      ensures IsWaiting(t, q) <==> IsWaiting(s, q)
      ensures OwesItself(s, q) ==> OwesItself(t, q)
    {
      SameAgent(s, t, q);
    }
  }

  lemma NewRunKeeps(s: Team, t: Team, p: Path, id: nat)
    requires Sound(s) && SchedulerOk(t.rt) && NewRun(s, t, p, id)
    ensures Sound(t) && Harmless(s, t) && !IsWaiting(t, p)
  {
    NewRunTree(s, t, p, id);
    NewRunPlaced(s, t, p, id);
    NewRunDeferred(s, t, p, id);
    NewRunHandlers(s, t, p, id);
    NewRunQuiet(s, t, p, id);
    NewRunHarmless(s, t, p, id);
  }

  lemma ReactivateKeeps(s: Team, p: Path)
    requires Sound(s) && p in s.agents && CanReceive(StatusOf(s, p))
    ensures Sound(Reactivate(s, p))
    ensures Harmless(s, Reactivate(s, p))
    ensures !IsWaiting(Reactivate(s, p), p)
  {
    ReactivateIsNewRun(s, p);
    NewRunKeeps(s, Reactivate(s, p), p, s.rt.nextId);
  }

  lemma ReactivateIsNewRun(s: Team, p: Path)
    requires SchedulerOk(s.rt) && TreeOk(s) && DeferredOk(s) && p in s.agents && RecordOf(s, p).terminal == Some(Completed)
    ensures NewRun(s, Reactivate(s, p), p, s.rt.nextId) && SchedulerOk(Reactivate(s, p).rt)
  {
    FreshSchedule(s.rt, p);
  }

  /** A spawning agent is never itself a member waiting to be scheduled. */
  lemma SpawnerNotDeferred(s: Team, sender: Path, name: string)
    requires TreeOk(s) && DeferredOk(s)
    requires sender == [] || (sender in s.agents && s.agents[sender].record !in s.deferred)
    ensures Parent(sender + [name]) == sender
    ensures forall d :: d in s.deferred && d in s.rt.records ==> !IsChild(sender + [name], s.rt.records[d].path)
  {
    assert Parent(sender + [name]) == sender;
    forall d | d in s.deferred && d in s.rt.records ensures s.rt.records[d].path != sender {
      assert s.agents[s.rt.records[d].path].record == d;
    }
  }

  lemma SpawnIsNewRun(s: Team, sender: Path, name: string)
    requires Sound(s) && sender + [name] !in s.agents
    requires sender == [] || (sender in s.agents && s.agents[sender].record !in s.deferred)
    ensures NewRun(s, DoSpawn(s, sender, name, false), sender + [name], s.rt.nextId)
    ensures SchedulerOk(DoSpawn(s, sender, name, false).rt)
  {
    SpawnerNotDeferred(s, sender, name);
    FreshSchedule(s.rt, sender + [name]);
  }

  lemma SpawnKeeps(s: Team, sender: Path, name: string)
    requires Sound(s)
    ensures Sound(DoSpawn(s, sender, name, false))
    ensures Harmless(s, DoSpawn(s, sender, name, false))
  {
    if sender + [name] !in s.agents && (sender == [] || (sender in s.agents && s.agents[sender].record !in s.deferred)) {
      SpawnIsNewRun(s, sender, name);
      NewRunKeeps(s, DoSpawn(s, sender, name, false), sender + [name], s.rt.nextId);
    }
  }

  lemma DeferKeeps(s: Team, sender: Path, name: string)
    requires Sound(s)
    ensures Sound(DoSpawn(s, sender, name, true))
    ensures Harmless(s, DoSpawn(s, sender, name, true))
  {
    var p := sender + [name];
    var t := DoSpawn(s, sender, name, true);
    if p !in s.agents && sender == [] {
      SpawnerNotDeferred(s, sender, name);
      assert SchedulerOk(t.rt);
      NewRunKeeps(s, t, p, s.rt.nextId);
    }
  }

  // ---------------------------------------------------------------- steps on the current runs

  /** No agent, report or handler is touched, except that some runs finish and
      hand over to their handlers. */
  ghost predicate RunsMove(s: Team, t: Team) {
    && t.agents == s.agents && t.delivered == s.delivered && t.deferred <= s.deferred
    && t.rt.records.Keys == s.rt.records.Keys
    && s.rt.inflight <= t.rt.inflight
    && (forall x :: x in s.rt.records ==>
          && t.rt.records[x].path == s.rt.records[x].path
          && (t.rt.records[x].terminal == s.rt.records[x].terminal
              || (s.rt.records[x].terminal.None? && x in t.rt.inflight)))
    && (forall x :: x in t.rt.inflight && x !in s.rt.inflight ==> Unfinished(s.rt, x) && !Unfinished(t.rt, x))
    && (forall x :: Unfinished(t.rt, x) ==> x in t.rt.handlers)
    && (forall x :: Doomed(t, x) ==> Doomed(s, x))
  }

  lemma RunsMoveTree(s: Team, t: Team)
    requires TreeOk(s) && HandlersUnderWay(s) && RunsMove(s, t)
    ensures TreeOk(t) && HandlersUnderWay(t)
  {
    forall x | x in t.rt.inflight + t.delivered
      ensures x in t.rt.records && !Unfinished(t.rt, x) && t.rt.records[x].path in t.agents
      ensures t.agents[t.rt.records[x].path].record == x || t.rt.records[x].terminal == Some(Completed)
    {
      assert x in s.rt.inflight + s.delivered || Unfinished(s.rt, x);
    }
  }

  lemma RunsMoveQuiet(s: Team, t: Team)
    requires TreeOk(s) && DeferredOk(s) && DeferredQuiet(s) && DeferredOk(t) && RunsMove(s, t)
    ensures DeferredQuiet(t)
  {
    forall d, x | d in t.deferred && x in t.rt.inflight + t.delivered && d in t.rt.records && x in t.rt.records
      ensures t.rt.records[x].path != t.rt.records[d].path
    {
      assert x in s.rt.inflight + s.delivered || (Unfinished(s.rt, x) && x != d);
    }
  }

  /** A run that ends with a `waiting` report is the only thing that can make an agent wait. */
  ghost predicate NobodyStartsWaiting(s: Team, t: Team) {
    forall p :: IsWaiting(t, p) ==> IsWaiting(s, p)
  }

  lemma RunsMoveDebts(s: Team, t: Team)
    requires TreeOk(s) && RunsMove(s, t)
    ensures forall c :: Owes(s, c) ==> Owes(t, c)
    ensures forall p :: OwesItself(s, p) ==> OwesItself(t, p)
  {
    forall c | Owes(s, c) ensures Owes(t, c) {
      var x := s.agents[c].record;
      assert x in s.rt.records;
    }
  }

  lemma RunsMoveKeeps(s: Team, t: Team)
    requires Sound(s) && RunsMove(s, t) && NobodyStartsWaiting(s, t)
    requires SchedulerOk(t.rt) && Placed(t) && DeferredOk(t)
    ensures Sound(t) && Harmless(s, t)
  {
    RunsMoveTree(s, t);
    RunsMoveQuiet(s, t);
    RunsMoveDebts(s, t);
  }


  lemma FinishRuns(s: Team, id: nat, status: Terminal)
    requires HandlersUnderWay(s)
    ensures RunsMove(s, s.(rt := Finish(s.rt, id, status)))
  {
  }

  lemma FinishPlaced(s: Team, id: nat, status: Terminal)
    requires Placed(s) && DeferredOk(s) && id !in s.rt.queue && id !in s.deferred
    ensures Placed(s.(rt := Finish(s.rt, id, status))) && DeferredOk(s.(rt := Finish(s.rt, id, status)))
  {
  }

  lemma FinishMoves(s: Team, id: nat, status: Terminal)
    requires Sound(s) && id !in s.rt.queue && id !in s.deferred
    ensures var t := s.(rt := Finish(s.rt, id, status));
      RunsMove(s, t) && SchedulerOk(t.rt) && Placed(t) && DeferredOk(t)
  {
    FinishScheduler(s.rt, id, status);
    FinishRuns(s, id, status);
    FinishPlaced(s, id, status);
  }

  /** A deferred member is scheduled: it runs, is queued, or was cancelled before it began. */
  lemma StartDeferredKeeps(s: Team, p: Path)
    requires Sound(s)
    ensures Sound(DoStartDeferred(s, p)) && Harmless(s, DoStartDeferred(s, p))
  {
    if p in s.agents && s.agents[p].record in s.deferred {
      StartDeferredPlaced(s, p);
      StartDeferredScheduler(s, p);
      StartDeferredMoves(s, p);
      RunsMoveKeeps(s, DoStartDeferred(s, p));
    }
  }

  lemma StartDeferredMoves(s: Team, p: Path)
    requires DeferredOk(s) && HandlersUnderWay(s) && p in s.agents && s.agents[p].record in s.deferred
    ensures RunsMove(s, DoStartDeferred(s, p)) && NobodyStartsWaiting(s, DoStartDeferred(s, p))
  {
    var id, t := s.agents[p].record, DoStartDeferred(s, p);
    assert Unfinished(s.rt, id);
    if s.rt.records[id].cancelRequested {
      FinishRuns(s, id, Cancelled);
      assert !Unfinished(t.rt, id);
    }
  }

  lemma StartDeferredScheduler(s: Team, p: Path)
    requires Sound(s) && p in s.agents && s.agents[p].record in s.deferred
    ensures SchedulerOk(DoStartDeferred(s, p).rt)
  {
    var id := s.agents[p].record;
    assert id !in s.rt.running && id !in s.rt.queue;
    ScheduleScheduler(s.rt, id);
  }

  lemma StartDeferredPlaced(s: Team, p: Path)
    requires Placed(s) && DeferredOk(s) && p in s.agents && s.agents[p].record in s.deferred
    ensures Placed(DoStartDeferred(s, p)) && DeferredOk(DoStartDeferred(s, p))
  {
  }

  /** Whether the run of `id` is about to end with a `waiting` report. */
  predicate EndsWaiting(s: Team, id: nat, ok: bool) {
    && id in s.rt.running && Unfinished(s.rt, id) && RunStatus(s.rt, id, ok) == Completed
    && s.rt.records[id].path in s.agents && s.agents[s.rt.records[id].path].report == Some(Waiting)
  }

  /** What `team_report` checked when the report was made, checked again: a child
      runs, is queued to run or waits itself, or its result or a follow-up is on the way. */
  predicate StillPending(s: Team, p: Path) {
    || (exists c :: c in s.agents && IsChild(c, p) && Owes(s, c))
    || (p in s.agents && s.agents[p].pending != [])
  }

  lemma RunEndsSound(s: Team, id: nat, ok: bool)
    requires Sound(s)
    ensures Sound(DoRunEnds(s, id, ok))
    ensures !EndsWaiting(s, id, ok) ==> Harmless(s, DoRunEnds(s, id, ok))
  {
    if id in s.rt.running && Unfinished(s.rt, id) {
      var t := DoRunEnds(s, id, ok);
      FinishMoves(s, id, RunStatus(s.rt, id, ok));
      RunsMoveTree(s, t);
      RunsMoveQuiet(s, t);
      RunsMoveDebts(s, t);
    }
  }

  /** Exactly when a run that ends with a `waiting` report leaves every wait
      covered: when something is still pending for it. */
  lemma RunEndsWaiting(s: Team, id: nat, ok: bool)
    requires Sound(s) && EveryWaitCovered(s) && EndsWaiting(s, id, ok)
    ensures EveryWaitCovered(DoRunEnds(s, id, ok)) <==> StillPending(s, s.rt.records[id].path)
  {
    var t := DoRunEnds(s, id, ok);
    var p := s.rt.records[id].path;
    FinishMoves(s, id, RunStatus(s.rt, id, ok));
    RunsMoveDebts(s, t);
    assert IsWaiting(t, p);
    assert OwesItself(t, p) <==> s.agents[p].pending != [];
    forall c | c in s.agents && IsChild(c, p) ensures Owes(t, c) <==> Owes(s, c) {
      assert c != p;
    }
    forall q | IsWaiting(t, q) && q != p ensures Covered(t, q) {
      assert IsWaiting(s, q);
      if !OwesItself(s, q) {
        var c :| c in s.agents && IsChild(c, q) && Owes(s, c);
        assert Owes(t, c);
      }
    }
  }

  /** What starting the next record leaves alone, and what it passes over. */
  lemma {:induction false} StartNextPasses(rt: Runtime)
    requires rt.runningCount < MAX_BACKGROUND_CONCURRENCY
    ensures var t := StartNext(rt);
      && t.records == rt.records && t.handlers == rt.handlers && t.inflight == rt.inflight && rt.running <= t.running
      && (forall x :: x in t.running ==> x in rt.running || (x in rt.queue && Unfinished(rt, x) && !rt.records[x].cancelRequested))
      && (forall x :: x in t.queue ==> x in rt.queue)
      && (forall x :: x in rt.queue && Unfinished(rt, x) && !rt.records[x].cancelRequested ==> x in t.queue || x in t.running)
    decreases |rt.queue|
  {
    if rt.queue != [] {
      var id := rt.queue[0];
      var rest := rt.(queue := rt.queue[1..]);
      assert forall x :: x in rt.queue <==> x == id || x in rest.queue;
      if !(Unfinished(rt, id) && !rt.records[id].cancelRequested) {
        StartNextPasses(rest);
      }
    }
  }

  lemma SlotReleasedKeeps(s: Team, id: nat)
    requires RuntimeOk(s.rt) && Sound(s)
    ensures Sound(DoSlotReleased(s, id)) && Harmless(s, DoSlotReleased(s, id))
  {
    if id in s.rt.running && !Unfinished(s.rt, id) {
      var t := DoSlotReleased(s, id);
      ReleaseKeeps(s.rt, id);
      SlotReleasedPlaced(s, id);
      SlotReleasedMoves(s, id);
      RunsMoveKeeps(s, t);
    }
  }

  lemma SlotReleasedMoves(s: Team, id: nat)
    requires SchedulerOk(s.rt) && Placed(s) && HandlersUnderWay(s) && id in s.rt.running
    ensures RunsMove(s, DoSlotReleased(s, id)) && NobodyStartsWaiting(s, DoSlotReleased(s, id))
  {
    var freed := s.rt.(running := s.rt.running - {id}, runningCount := s.rt.runningCount - 1);
    StartNextPasses(freed);
  }

  lemma SlotReleasedPlaced(s: Team, id: nat)
    requires SchedulerOk(s.rt) && Placed(s) && DeferredOk(s) && id in s.rt.running && !Unfinished(s.rt, id)
    ensures Placed(DoSlotReleased(s, id)) && DeferredOk(DoSlotReleased(s, id))
  {
    var freed := s.rt.(running := s.rt.running - {id}, runningCount := s.rt.runningCount - 1);
    StartNextPasses(freed);
  }

  lemma RequestCancelPlaced(s: Team, id: nat)
    requires Placed(s) && DeferredOk(s)
    ensures Placed(s.(rt := RequestCancel(s.rt, id))) && DeferredOk(s.(rt := RequestCancel(s.rt, id)))
  {
  }

  lemma RequestCancelMoves(s: Team, id: nat)
    requires HandlersUnderWay(s) && Placed(s) && (id in s.rt.queue && Unfinished(s.rt, id) ==> s.rt.records[id].cancelRequested)
    ensures RunsMove(s, s.(rt := RequestCancel(s.rt, id))) && NobodyStartsWaiting(s, s.(rt := RequestCancel(s.rt, id)))
  {
  }

  /** A signal for a record that is not queued takes nothing away. */
  lemma SignalFiresKeeps(s: Team, id: nat)
    requires Sound(s) && !Dooms(s, id)
    ensures Sound(s.(rt := RequestCancel(s.rt, id))) && Harmless(s, s.(rt := RequestCancel(s.rt, id)))
  {
    RequestCancelScheduler(s.rt, id);
    RequestCancelPlaced(s, id);
    RequestCancelMoves(s, id);
    RunsMoveKeeps(s, s.(rt := RequestCancel(s.rt, id)));
  }

  /** The signal of `id` fires while it is queued. */
  predicate Dooms(s: Team, id: nat) {
    id in s.rt.queue && Unfinished(s.rt, id) && !s.rt.records[id].cancelRequested
  }

  // ---------------------------------------------------------------- one agent stops owing

  /** The parent of c does not wait, or has something else to wake it. */
  predicate Spared(s: Team, c: Path) {
    c != [] && IsWaiting(s, Parent(c)) ==>
      OwesItself(s, Parent(c)) || exists d :: d in s.agents && d != c && IsChild(d, Parent(c)) && Owes(s, d)
  }

  /** Agent c owes nothing any more and does not wait; all else is as it was. */
  ghost predicate StopsOwing(s: Team, t: Team, c: Path) {
    && t.agents.Keys == s.agents.Keys && c in s.agents && !Owes(t, c) && !IsWaiting(t, c)
    && (forall d :: d != c ==> (Owes(t, d) <==> Owes(s, d)) && (IsWaiting(t, d) <==> IsWaiting(s, d)))
    && (forall p :: p != c ==> (OwesItself(t, p) <==> OwesItself(s, p)))
  }

  /** Exactly when that leaves every wait covered: when c's parent is spared. */
  lemma StopsOwingIff(s: Team, t: Team, c: Path)
    requires TreeOk(s) && EveryWaitCovered(s) && StopsOwing(s, t, c)
    ensures EveryWaitCovered(t) <==> Spared(s, c)
  {
    if Spared(s, c) {
      forall p | IsWaiting(t, p) ensures Covered(t, p) {
        if !OwesItself(s, p) {
          if p == Parent(c) {
            var d :| d in s.agents && d != c && IsChild(d, p) && Owes(s, d);
            assert Owes(t, d);
          } else {
            var d :| d in s.agents && IsChild(d, p) && Owes(s, d);
            assert d != c && Owes(t, d);
          }
        }
      }
    }
    if EveryWaitCovered(t) && c != [] && IsWaiting(s, Parent(c)) {
      var p := Parent(c);
      assert p != c && IsWaiting(t, p) && Covered(t, p);
      if !OwesItself(t, p) {
        var d :| d in t.agents && IsChild(d, p) && Owes(t, d);
        assert d != c && Owes(s, d);
      }
    }
  }

  lemma SignalDoomsSound(s: Team, id: nat)
    requires Sound(s)
    ensures Sound(s.(rt := RequestCancel(s.rt, id)))
  {
    RequestCancelScheduler(s.rt, id);
    RequestCancelPlaced(s, id);
    var t := s.(rt := RequestCancel(s.rt, id));
    assert forall x :: x in s.rt.records ==> t.rt.records[x].path == s.rt.records[x].path && t.rt.records[x].terminal == s.rt.records[x].terminal;
    SameRunsTree(s, t);
  }

  /** Records keep paths and statuses; nothing else changes. */
  lemma SameRunsTree(s: Team, t: Team)
    requires TreeOk(s) && HandlersUnderWay(s) && DeferredQuiet(s)
    requires t.agents == s.agents && t.delivered == s.delivered && t.deferred == s.deferred
    requires t.rt.inflight == s.rt.inflight && t.rt.handlers == s.rt.handlers && t.rt.records.Keys == s.rt.records.Keys
    requires forall x :: x in s.rt.records ==> t.rt.records[x].path == s.rt.records[x].path && t.rt.records[x].terminal == s.rt.records[x].terminal
    ensures TreeOk(t) && HandlersUnderWay(t) && DeferredQuiet(t)
  {
    forall x | x in t.rt.inflight + t.delivered
      ensures x in t.rt.records && !Unfinished(t.rt, x) && t.rt.records[x].path in t.agents
      ensures t.agents[t.rt.records[x].path].record == x || t.rt.records[x].terminal == Some(Completed)
    {
      assert x in s.rt.inflight + s.delivered;
    }
  }

  /** Exactly when the signal of a queued record may fire: when the agent's parent
      does not wait or has something else to wake it. */
  lemma QueuedSignalIff(s: Team, id: nat)
    requires Sound(s) && EveryWaitCovered(s) && Dooms(s, id)
    ensures EveryWaitCovered(s.(rt := RequestCancel(s.rt, id))) <==> Spared(s, s.rt.records[id].path)
  {
    var t, c := s.(rt := RequestCancel(s.rt, id)), s.rt.records[id].path;
    assert c in s.agents && s.agents[c].record == id && Doomed(t, id);
    assert id !in s.rt.inflight + s.delivered;
    forall d | d in s.agents && d != c
      ensures (Owes(t, d) <==> Owes(s, d)) && (IsWaiting(t, d) <==> IsWaiting(s, d)) && (OwesItself(t, d) <==> OwesItself(s, d))
    {
      assert s.agents[d].record != id;
      assert RecordOf(t, d) == RecordOf(s, d);
    }
    StopsOwingIff(s, t, c);
  }

  lemma InterruptKeeps(s: Team, p: Path)
    requires Sound(s)
    ensures Sound(DoInterrupt(s, p)) && Harmless(s, DoInterrupt(s, p))
  {
    if p in s.agents && Unfinished(s.rt, s.agents[p].record) {
      var id := s.agents[p].record;
      if id in s.rt.queue {
        CancelQueuedMoves(s, id);
        RunsMoveKeeps(s, DoInterrupt(s, p));
      } else {
        SignalFiresKeeps(s, id);
      }
    }
  }

  lemma CancelQueuedMoves(s: Team, id: nat)
    requires Sound(s) && id in s.rt.queue
    ensures var t := s.(rt := Cancel(s.rt, id));
      RunsMove(s, t) && NobodyStartsWaiting(s, t) && SchedulerOk(t.rt) && Placed(t) && DeferredOk(t)
  {
    CancelQueuedScheduler(s.rt, id);
    CancelQueuedPlaced(s, id);
    CancelQueuedRuns(s, id);
  }

  lemma CancelQueuedScheduler(rt: Runtime, id: nat)
    requires SchedulerOk(rt)
    ensures SchedulerOk(Cancel(rt, id))
  {
    RequestCancelScheduler(rt, id);
    if id in rt.queue {
      UnqueueScheduler(RequestCancel(rt, id), id);
      FinishScheduler(RequestCancel(rt, id).(queue := Removed(rt.queue, id)), id, Cancelled);
    }
  }

  lemma CancelQueuedRuns(s: Team, id: nat)
    requires Placed(s) && HandlersUnderWay(s) && id in s.rt.queue
    ensures var t := s.(rt := Cancel(s.rt, id)); RunsMove(s, t) && NobodyStartsWaiting(s, t)
  {
    var t := s.(rt := Cancel(s.rt, id));
    assert Unfinished(s.rt, id) && id in s.rt.handlers;
    assert t.rt.records == s.rt.records[id := Record(s.rt.records[id].path, Some(Cancelled), true)];
    assert t.rt.inflight == s.rt.inflight + {id} && t.rt.handlers == s.rt.handlers - {id};
  }

  lemma CancelQueuedPlaced(s: Team, id: nat)
    requires Placed(s) && DeferredOk(s) && id in s.rt.queue && Distinct(s.rt.queue)
    ensures Placed(s.(rt := Cancel(s.rt, id))) && DeferredOk(s.(rt := Cancel(s.rt, id)))
  {
    RemovedMembers(s.rt.queue, id);
  }

  // ---------------------------------------------------------------- steps that edit one agent

  /** Only the report and the follow-ups of agent p change, and the order of the queue. */
  ghost predicate Edits(s: Team, t: Team, p: Path) {
    && p in s.agents && p in t.agents && t.agents == s.agents[p := t.agents[p]]
    && t.agents[p].record == s.agents[p].record
    && t.rt.records == s.rt.records && t.rt.handlers == s.rt.handlers
    && t.rt.running == s.rt.running && (forall x :: x in t.rt.queue <==> x in s.rt.queue)
    && t.rt.inflight == s.rt.inflight && t.delivered == s.delivered && t.deferred == s.deferred
  }

  lemma EditsTree(s: Team, t: Team, p: Path)
    requires TreeOk(s) && Placed(s) && DeferredOk(s) && Edits(s, t, p)
    ensures TreeOk(t) && Placed(t) && DeferredOk(t)
  {
    assert t.agents.Keys == s.agents.Keys;
    EditsPlaced(s, t, p);
  }

  lemma EditsPlaced(s: Team, t: Team, p: Path)
    requires Placed(s) && DeferredOk(s) && Edits(s, t, p)
    ensures Placed(t) && DeferredOk(t)
  {
    assert forall x :: Unfinished(t.rt, x) <==> Unfinished(s.rt, x);
  }

  lemma EditsHandlers(s: Team, t: Team, p: Path)
    requires HandlersUnderWay(s) && Edits(s, t, p)
    ensures HandlersUnderWay(t)
  {
    forall x | x in t.rt.inflight + t.delivered
      ensures x in t.rt.records && !Unfinished(t.rt, x) && t.rt.records[x].path in t.agents
      ensures t.agents[t.rt.records[x].path].record == x || t.rt.records[x].terminal == Some(Completed)
    {
      assert x in s.rt.inflight + s.delivered;
    }
  }

  lemma EditsKeeps(s: Team, t: Team, p: Path)
    requires Sound(s) && SchedulerOk(t.rt) && Edits(s, t, p)
    requires IsWaiting(t, p) == IsWaiting(s, p)
    requires s.agents[p].pending != [] && IsWaiting(t, p) ==> t.agents[p].pending != []
    ensures Sound(t) && Harmless(s, t)
  {
    EditsTree(s, t, p);
    EditsHandlers(s, t, p);
    forall q | q in s.agents && q != p
      ensures Owes(s, q) ==> Owes(t, q)
      ensures IsWaiting(t, q) <==> IsWaiting(s, q)
      ensures OwesItself(s, q) ==> OwesItself(t, q)
    {
      SameAgent(s, t, q);
    }
  }

  lemma DeclareKeeps(s: Team, p: Path, state: ReportState)
    requires Sound(s)
    ensures Sound(DoDeclare(s, p, state)) && Harmless(s, DoDeclare(s, p, state))
  {
    var t := DoDeclare(s, p, state);
    if t != s {
      EditsKeeps(s, t, p);
    }
  }


  /** A follow-up whose signal is already aborted reaches a waiting agent. */
  predicate Wipes(s: Team, target: Path, signalAborted: bool) {
    signalAborted && IsWaiting(s, target)
  }

  lemma FollowUpKeeps(s: Team, sender: Path, target: Path, signalAborted: bool)
    requires Sound(s) && !Wipes(s, target, signalAborted)
    ensures Sound(DoFollowUp(s, sender, target, signalAborted))
    ensures Harmless(s, DoFollowUp(s, sender, target, signalAborted))
  {
    var t := DoFollowUp(s, sender, target, signalAborted);
    if target in s.agents {
      if StatusOf(s, target).Queued? {
        PrioritizeScheduler(s.rt, s.agents[target].record);
        EditsKeeps(s, t, target);
      } else if CanReceive(StatusOf(s, target)) {
        if signalAborted {
          EditsKeeps(s, t, target);
        } else {
          ReactivateKeeps(s, target);
        }
      }
    }
  }

  lemma WipedSound(s: Team, sender: Path, target: Path)
    requires Sound(s) && IsWaiting(s, target)
    ensures Sound(DoFollowUp(s, sender, target, true))
    ensures Edits(s, DoFollowUp(s, sender, target, true), target)
  {
    var t := DoFollowUp(s, sender, target, true);
    EditsTree(s, t, target);
    EditsHandlers(s, t, target);
  }

  /** Clearing the report of a waiting agent changes no other agent's debts. */
  lemma WipedOthers(s: Team, t: Team, target: Path, d: Path)
    requires target in s.agents && d in s.agents && d != target
    requires t == s.(agents := s.agents[target := s.agents[target].(report := None)])
    ensures (Owes(t, d) <==> Owes(s, d)) && (IsWaiting(t, d) <==> IsWaiting(s, d)) && (OwesItself(t, d) <==> OwesItself(s, d))
  {
    assert RecordOf(t, d) == RecordOf(s, d);
  }

  lemma WipedTarget(s: Team, t: Team, target: Path)
    requires IsWaiting(s, target) && t == s.(agents := s.agents[target := s.agents[target].(report := None)])
    ensures !IsWaiting(t, target) && (Owes(t, target) <==> s.agents[target].record in s.rt.inflight)
  {
    assert RecordOf(t, target) == RecordOf(s, target);
  }

  /** Exactly when a follow-up with an aborted signal may reach a waiting agent:
      when that agent's own result is still on its way to the parent, or the
      parent does not wait or has something else to wake it. */
  lemma AbortedFollowUpIff(s: Team, sender: Path, target: Path)
    requires Sound(s) && EveryWaitCovered(s) && IsWaiting(s, target)
    ensures EveryWaitCovered(DoFollowUp(s, sender, target, true)) <==>
      s.agents[target].record in s.rt.inflight || Spared(s, target)
  {
    var t := DoFollowUp(s, sender, target, true);
    WipedSound(s, sender, target);
    forall d | d in s.agents && d != target
      ensures (Owes(t, d) <==> Owes(s, d)) && (IsWaiting(t, d) <==> IsWaiting(s, d)) && (OwesItself(t, d) <==> OwesItself(s, d))
    {
      WipedOthers(s, t, target, d);
    }
    WipedTarget(s, t, target);
    if s.agents[target].record in s.rt.inflight {
      HarmlessKeeps(s, t);
    } else {
      StopsOwingIff(s, t, target);
    }
  }

  lemma RollBackTree(s: Team, p: Path)
    requires Sound(s) && p in s.agents && s.agents[p].record in s.deferred
    ensures TreeOk(DoRollBack(s, p)) && Placed(DoRollBack(s, p))
  {
    var t := DoRollBack(s, p);
    RollBackRuns(s, p);
    forall q | q in t.agents && |q| > 1 ensures Parent(q) in t.agents {
      assert !IsChild(q, p);
    }
  }

  lemma RollBackRuns(s: Team, p: Path)
    requires DeferredOk(s) && p in s.agents && s.agents[p].record in s.deferred
    ensures var t, id := DoRollBack(s, p), s.agents[p].record;
      && (forall x :: Unfinished(t.rt, x) <==> Unfinished(s.rt, x) && x != id)
      && (forall x :: x in s.rt.records && x != id ==> t.rt.records[x] == s.rt.records[x])
      && t.rt.records.Keys == s.rt.records.Keys && t.rt.records[id].path == s.rt.records[id].path
      && t.rt.queue == s.rt.queue && t.rt.running == s.rt.running
  {
  }

  lemma RollBackDeferred(s: Team, p: Path)
    requires DeferredOk(s) && p in s.agents && s.agents[p].record in s.deferred
    ensures DeferredOk(DoRollBack(s, p))
  {
  }

  lemma RollBackHandlers(s: Team, p: Path)
    requires TreeOk(s) && HandlersUnderWay(s) && DeferredOk(s) && p in s.agents && s.agents[p].record in s.deferred
    requires DeferredQuiet(s)
    ensures HandlersUnderWay(DoRollBack(s, p)) && DeferredQuiet(DoRollBack(s, p))
  {
    var t := DoRollBack(s, p);
    forall x | x in t.rt.inflight + t.delivered
      ensures x in t.rt.records && !Unfinished(t.rt, x) && t.rt.records[x].path in t.agents
      ensures t.agents[t.rt.records[x].path].record == x || t.rt.records[x].terminal == Some(Completed)
    {
      assert x in s.rt.inflight + s.delivered;
    }
  }

  lemma RollBackSound(s: Team, p: Path)
    requires Sound(s)
    ensures Sound(DoRollBack(s, p))
  {
    if p in s.agents && s.agents[p].record in s.deferred {
      RollBackTree(s, p);
      RollBackDeferred(s, p);
      RollBackHandlers(s, p);
      DiscardScheduler(s.rt, s.agents[p].record);
    }
  }

  /** Only a child of the root can be rolled back, and the root never waits. */
  lemma RollBackKeeps(s: Team, p: Path)
    requires Sound(s) && EveryWaitCovered(s)
    ensures EveryWaitCovered(DoRollBack(s, p))
  {
    if p in s.agents && s.agents[p].record in s.deferred {
      var t := DoRollBack(s, p);
      forall q | IsWaiting(t, q) ensures Covered(t, q) {
        RollBackCover(s, p, q);
      }
    }
  }

  lemma DiscardScheduler(rt: Runtime, id: nat)
    requires SchedulerOk(rt)
    ensures SchedulerOk(Discard(rt, id))
  {
  }

  lemma RollBackCover(s: Team, p: Path, q: Path)
    requires Sound(s) && EveryWaitCovered(s) && p in s.agents && s.agents[p].record in s.deferred
    requires IsWaiting(DoRollBack(s, p), q)
    ensures Covered(DoRollBack(s, p), q)
  {
    var t := DoRollBack(s, p);
    assert |p| == 1 && q != [];
    assert q != p && RecordOf(t, q) == RecordOf(s, q);
    assert IsWaiting(s, q) && t.rt.inflight == s.rt.inflight;
    if !OwesItself(s, q) {
      var c :| c in s.agents && IsChild(c, q) && Owes(s, c);
      assert c != p;
      assert RecordOf(t, c) == RecordOf(s, c);
      SameAgent(s, t, c);
    }
  }

  // ---------------------------------------------------------------- the two halves of a finish handler

  /** The handler of run `id` of agent p goes from its flush to its delivery. */
  function HandlerMoved(s: Team, id: nat): Team {
    s.(rt := s.rt.(inflight := s.rt.inflight - {id}), delivered := s.delivered + {id})
  }

  lemma HandlerMovedSound(s: Team, id: nat)
    requires Sound(s) && id in s.rt.inflight
    ensures Sound(HandlerMoved(s, id))
  {
    var t := HandlerMoved(s, id);
    assert t.rt.inflight + t.delivered == s.rt.inflight + s.delivered;
    HandlerMovedHandlers(s, t);
  }

  lemma HandlerMovedHandlers(s: Team, t: Team)
    requires HandlersUnderWay(s) && DeferredQuiet(s) && t.rt.inflight !! t.delivered
    requires t.agents == s.agents && t.deferred == s.deferred && t.rt.records == s.rt.records && t.rt.handlers == s.rt.handlers
    requires t.rt.inflight + t.delivered == s.rt.inflight + s.delivered
    ensures HandlersUnderWay(t) && DeferredQuiet(t)
  {
  }

  /** Only the parent of p can lose by it. */
  lemma HandlerMovedCover(s: Team, id: nat, p: Path, q: Path)
    requires Sound(s) && EveryWaitCovered(s) && id in s.rt.inflight && s.rt.records[id].path == p
    requires IsWaiting(s, q)
    requires q != Parent(p) || (s.rt.records[id].terminal == Some(Completed) && Quiet(s, p))
    ensures Covered(HandlerMoved(s, id), q)
  {
    var t := HandlerMoved(s, id);
    if OwesItself(s, q) {
      assert OwesItself(t, q);
    } else {
      var c :| c in s.agents && IsChild(c, q) && Owes(s, c);
      assert RecordOf(t, c) == RecordOf(s, c);
      if s.agents[c].record == id {
        assert c == p && q == Parent(p);
        assert s.agents[p].report == Some(Waiting);
        assert IsWaiting(t, c);
      }
      assert Owes(t, c);
    }
  }

  lemma DeliverKeeps(s: Team, p: Path)
    requires Sound(s) && p in s.agents
    ensures Sound(DeliverFinalAnswer(s, p)) && Harmless(s, DeliverFinalAnswer(s, p))
    ensures !IsWaiting(DeliverFinalAnswer(s, p), Parent(p))
  {
    var parent := Parent(p);
    if parent in s.agents {
      if CanReceive(StatusOf(s, parent)) {
        ReactivateKeeps(s, parent);
      } else if StatusOf(s, parent).Queued? {
        EditsKeeps(s, DeliverFinalAnswer(s, p), parent);
      }
    }
  }

  lemma HandlerDeliversSound(s: Team, id: nat)
    requires Sound(s)
    ensures Sound(DoHandlerDelivers(s, id))
  {
    if id in s.rt.inflight {
      assert id in s.rt.inflight + s.delivered;
      HandlerMovedSound(s, id);
      DeliverKeeps(HandlerMoved(s, id), s.rt.records[id].path);
    }
  }

  lemma HandlerDeliversKeeps(s: Team, id: nat)
    requires Sound(s) && EveryWaitCovered(s)
    ensures EveryWaitCovered(DoHandlerDelivers(s, id))
  {
    if id in s.rt.inflight {
      assert id in s.rt.inflight + s.delivered;
      var p := s.rt.records[id].path;
      var mid := HandlerMoved(s, id);
      var t := DoHandlerDelivers(s, id);
      HandlerMovedSound(s, id);
      if s.rt.records[id].terminal == Some(Completed) && Quiet(s, p) {
        forall q | IsWaiting(t, q) ensures Covered(t, q) {
          HandlerMovedCover(s, id, p, q);
        }
      } else {
        DeliverKeeps(mid, p);
        forall q | IsWaiting(t, q) ensures Covered(t, q) {
          HandlerMovedCover(s, id, p, q);
          HarmlessCover(mid, t, q);
        }
      }
    }
  }

  /** The handler of run `id` is over. */
  function HandlerGone(s: Team, id: nat): Team {
    s.(delivered := s.delivered - {id})
  }

  lemma HandlerGoneKeeps(s: Team, id: nat, q: Path)
    requires Sound(s) && id in s.delivered
    ensures Sound(HandlerGone(s, id))
    ensures IsWaiting(s, q) && Covered(s, q) && (s.agents[q].record == id ==> s.agents[q].pending == []) ==>
      Covered(HandlerGone(s, id), q)
  {
    var t := HandlerGone(s, id);
    assert forall x :: x in t.rt.inflight + t.delivered ==> x in s.rt.inflight + s.delivered;
    if IsWaiting(s, q) && Covered(s, q) && !OwesItself(s, q) {
      var c :| c in s.agents && IsChild(c, q) && Owes(s, c);
      assert RecordOf(t, c) == RecordOf(s, c);
      assert Owes(t, c);
    }
  }

  /** After its delivery an agent takes a follow-up: it wakes itself, cannot be woken, or has none. */
  lemma FollowsUpKeeps(s: Team, id: nat, p: Path)
    requires Sound(s) && id in s.delivered && s.rt.records[id].path == p
    ensures Sound(DoHandlerFollowsUp(s, id)) && Harmless(HandlerGone(s, id), DoHandlerFollowsUp(s, id))
    ensures s.agents[p].pending != [] ==> !IsWaiting(DoHandlerFollowsUp(s, id), p)
  {
    assert id in s.rt.inflight + s.delivered;
    var gone := HandlerGone(s, id);
    HandlerGoneKeeps(s, id, p);
    var t := DoHandlerFollowsUp(s, id);
    if s.rt.records[id].terminal != Some(Completed) {
      EditsKeeps(gone, t, p);
    } else if s.agents[p].pending != [] {
      var taken := gone.(agents := s.agents[p := s.agents[p].(pending := s.agents[p].pending[1..])]);
      TakeFollowUp(gone, taken, p);
      if CanReceive(StatusOf(taken, p)) {
        ReactivateKeeps(taken, p);
        TakenHarmless(gone, taken, t, p);
      } else {
        TakenHarmless(gone, taken, t, p);
      }
    }
  }

  lemma TakeFollowUp(s: Team, t: Team, p: Path)
    requires Sound(s) && Edits(s, t, p) && t.rt == s.rt && t.agents[p].report == s.agents[p].report
    ensures Sound(t)
    ensures forall q :: Owes(s, q) ==> Owes(t, q)
    ensures forall q :: q != p && OwesItself(s, q) ==> OwesItself(t, q)
    ensures forall q :: IsWaiting(t, q) ==> IsWaiting(s, q)
  {
    EditsTree(s, t, p);
    EditsHandlers(s, t, p);
    forall q | q in s.agents
      ensures Owes(s, q) ==> Owes(t, q)
      ensures IsWaiting(t, q) <==> IsWaiting(s, q)
    {
      SameAgent(s, t, q);
    }
  }

  lemma TakenHarmless(s: Team, mid: Team, t: Team, p: Path)
    requires forall q :: Owes(s, q) ==> Owes(mid, q)
    requires forall q :: q != p && OwesItself(s, q) ==> OwesItself(mid, q)
    requires forall q :: IsWaiting(mid, q) ==> IsWaiting(s, q)
    requires Harmless(mid, t) && !IsWaiting(t, p)
    ensures Harmless(s, t)
  {
  }

  lemma HandlerFollowsUpKeeps(s: Team, id: nat)
    requires Sound(s) && EveryWaitCovered(s)
    ensures EveryWaitCovered(DoHandlerFollowsUp(s, id))
  {
    if id in s.delivered {
      assert id in s.rt.inflight + s.delivered;
      var p := s.rt.records[id].path;
      var t := DoHandlerFollowsUp(s, id);
      FollowsUpKeeps(s, id, p);
      forall q | IsWaiting(t, q) ensures Covered(t, q) {
        assert IsWaiting(HandlerGone(s, id), q);
        assert IsWaiting(s, q) && (s.agents[q].record == id ==> q == p);
        HandlerGoneKeeps(s, id, q);
        HarmlessCover(HandlerGone(s, id), t, q);
      }
    }
  }

  // ---------------------------------------------------------------- every step, every run

  /** The three things the program leaves to its environment.  A run may end
      with a `waiting` report only while something is still pending for it; the
      signal of a queued record may fire, and a follow-up with an aborted signal
      may reach a waiting agent, only when that leaves every wait covered. */
  predicate Disciplined(s: Team, e: Event) {
    match e
    case RunEnds(id, ok) => EndsWaiting(s, id, ok) ==> StillPending(s, s.rt.records[id].path)
    case SignalFires(id) => Dooms(s, id) ==> Spared(s, s.rt.records[id].path)
    case FollowUp(_, target, signalAborted) =>
      Wipes(s, target, signalAborted) ==> s.agents[target].record in s.rt.inflight || Spared(s, target)
    case _ => true
  }

  predicate DisciplinedRun(s: Team, es: seq<Event>)
    decreases |es|
  {
    es == [] || (Disciplined(s, es[0]) && DisciplinedRun(Step(s, es[0]), es[1..]))
  }

  lemma WokenRuntime(rt: Runtime, id: nat)
    requires RuntimeOk(rt)
    ensures RuntimeOk(rt.(inflight := rt.inflight - {id}))
  {
  }

  lemma DeliversKeepsRuntime(s: Team, id: nat)
    requires RuntimeOk(s.rt)
    ensures RuntimeOk(DoHandlerDelivers(s, id).rt)
  {
    WokenRuntime(s.rt, id);
    if id in s.rt.inflight && id in s.rt.records && s.rt.records[id].path != [] {
      var p := s.rt.records[id].path;
      AnswerKeepsRuntime(s.(rt := s.rt.(inflight := s.rt.inflight - {id}), delivered := s.delivered + {id}), p);
    }
  }

  lemma AnswerKeepsRuntime(s: Team, p: Path)
    requires RuntimeOk(s.rt) && p != []
    ensures p in s.agents ==> RuntimeOk(DeliverFinalAnswer(s, p).rt)
  {
    FreshScheduleKeeps(s.rt, Parent(p));
  }

  lemma FollowsUpKeepsRuntime(s: Team, id: nat)
    requires RuntimeOk(s.rt)
    ensures RuntimeOk(DoHandlerFollowsUp(s, id).rt)
  {
    if id in s.rt.records {
      FreshScheduleKeeps(s.rt, s.rt.records[id].path);
    }
  }

  lemma FollowUpKeepsRuntime(s: Team, sender: Path, target: Path, signalAborted: bool)
    requires RuntimeOk(s.rt)
    ensures RuntimeOk(DoFollowUp(s, sender, target, signalAborted).rt)
  {
    if target in s.agents {
      if StatusOf(s, target).Queued? {
        PrioritizeKeeps(s.rt, s.agents[target].record);
      } else if CanReceive(StatusOf(s, target)) && !signalAborted {
        FreshScheduleKeeps(s.rt, target);
      }
    }
  }

  lemma SpawnKeepsRuntime(s: Team, sender: Path, name: string, deferStart: bool)
    requires RuntimeOk(s.rt)
    ensures RuntimeOk(DoSpawn(s, sender, name, deferStart).rt)
  {
    CreateKeeps(s.rt, sender + [name]);
    FreshScheduleKeeps(s.rt, sender + [name]);
  }

  lemma RunKeepsRuntime(s: Team, id: nat, ok: bool)
    requires RuntimeOk(s.rt)
    ensures RuntimeOk(DoRunEnds(s, id, ok).rt) && RuntimeOk(DoSlotReleased(s, id).rt)
  {
    FinishKeeps(s.rt, id, RunStatus(s.rt, id, ok));
    if id in s.rt.running {
      ReleaseKeeps(s.rt, id);
    }
  }

  lemma MembersKeepRuntime(s: Team, p: Path)
    requires RuntimeOk(s.rt) && DeferredApart(s)
    ensures RuntimeOk(DoStartDeferred(s, p).rt) && RuntimeOk(DoRollBack(s, p).rt) && RuntimeOk(DoInterrupt(s, p).rt)
  {
    if p in s.agents {
      var id := s.agents[p].record;
      DiscardKeeps(s.rt, id);
      CancelKeeps(s.rt, id);
      if id in s.deferred {
        ScheduleKeeps(s.rt, id);
      }
    }
  }

  /** Members not yet scheduled hold no slot and no place in the queue. */
  ghost predicate DeferredApart(s: Team) {
    forall id :: id in s.deferred ==> id in s.rt.records && id !in s.rt.running && id !in s.rt.queue
  }

  /** The scheduler, the log and the finish notices are right after every
      step, disciplined or not. */
  lemma StepKeepsRuntime(s: Team, e: Event)
    requires RuntimeOk(s.rt) && DeferredApart(s)
    ensures RuntimeOk(Step(s, e).rt)
  {
    match e
    case Spawn(sender, name, deferStart) => SpawnKeepsRuntime(s, sender, name, deferStart);
    case StartDeferred(p) => MembersKeepRuntime(s, p);
    case RollBack(p) => MembersKeepRuntime(s, p);
    case RunEnds(id, ok) => RunKeepsRuntime(s, id, ok);
    case SlotReleased(id) => RunKeepsRuntime(s, id, true);
    case HandlerDelivers(id) => DeliversKeepsRuntime(s, id);
    case HandlerFollowsUp(id) => FollowsUpKeepsRuntime(s, id);
    case Declare(_, _) =>
    case FollowUp(sender, target, signalAborted) => FollowUpKeepsRuntime(s, sender, target, signalAborted);
    case Interrupt(target) => MembersKeepRuntime(s, target);
    case SignalFires(id) => RequestCancelKeeps(s.rt, id);
  }

  /** What a step may do to the records, the slots and the queue: ids are never
      forgotten, a terminal status is never changed, and slots and places in
      the queue go only to records that had one, were new, or were deferred. */
  ghost predicate Grows(a: Runtime, b: Runtime, member: set<nat>) {
    && a.nextId <= b.nextId
    && (forall id :: id in a.records ==> id in b.records && (a.records[id].terminal.Some? ==> b.records[id].terminal == a.records[id].terminal))
    && (forall id :: id in b.running || id in b.queue ==> id in a.running || id in a.queue || id >= a.nextId || id in member)
  }

  lemma {:induction false} StartNextGrows(rt: Runtime)
    ensures Grows(rt, StartNext(rt), {})
    decreases |rt.queue|
  {
    if rt.queue != [] {
      var id := rt.queue[0];
      var rest := rt.(queue := rt.queue[1..]);
      assert forall x :: x in rest.queue ==> x in rt.queue;
      if !(Unfinished(rt, id) && !rt.records[id].cancelRequested) {
        StartNextGrows(rest);
      }
    }
  }

  lemma ReleaseGrows(rt: Runtime, id: nat)
    ensures Grows(rt, ReleaseSlot(rt, id), {})
  {
    StartNextGrows(rt.(running := rt.running - {id}, runningCount := rt.runningCount - 1));
  }

  lemma FreshGrows(rt: Runtime, p: Path)
    requires SchedulerOk(rt)
    ensures Grows(rt, CreateRecord(rt, p), {}) && Grows(rt, Schedule(CreateRecord(rt, p), rt.nextId), {})
  {
  }

  lemma ScheduleGrows(rt: Runtime, id: nat)
    ensures Grows(rt, Schedule(rt, id), {id})
  {
  }

  lemma FinishGrows(rt: Runtime, id: nat, t: Terminal)
    ensures Grows(rt, Finish(rt, id, t), {}) && Grows(rt, RequestCancel(rt, id), {})
  {
  }

  lemma CancelGrows(rt: Runtime, id: nat)
    requires Distinct(rt.queue)
    ensures Grows(rt, Cancel(rt, id), {})
  {
    RemovedMembers(rt.queue, id);
  }

  lemma PrioritizeGrows(rt: Runtime, id: nat)
    requires Distinct(rt.queue)
    ensures Grows(rt, Prioritize(rt, id), {})
  {
    RemovedMembers(rt.queue, id);
  }

  lemma DiscardGrows(rt: Runtime, id: nat)
    ensures Grows(rt, Discard(rt, id), {})
  {
  }

  lemma DeliversGrows(s: Team, id: nat)
    requires SchedulerOk(s.rt)
    ensures Grows(s.rt, DoHandlerDelivers(s, id).rt, {})
  {
    if id in s.rt.records && s.rt.records[id].path != [] {
      var woken := s.rt.(inflight := s.rt.inflight - {id});
      assert SchedulerOk(woken);
      FreshGrows(woken, Parent(s.rt.records[id].path));
    }
  }

  lemma FollowUpGrows(s: Team, sender: Path, target: Path, signalAborted: bool)
    requires SchedulerOk(s.rt)
    ensures Grows(s.rt, DoFollowUp(s, sender, target, signalAborted).rt, {})
  {
    FreshGrows(s.rt, target);
    if target in s.agents {
      PrioritizeGrows(s.rt, s.agents[target].record);
    }
  }

  /** The only record a step can take out of the deferred ones. */
  function Scheduled(s: Team, e: Event): set<nat> {
    if e.StartDeferred? && e.path in s.agents then {s.agents[e.path].record} else {}
  }

  lemma StartDeferredGrows(s: Team, p: Path)
    ensures Grows(s.rt, DoStartDeferred(s, p).rt, Scheduled(s, StartDeferred(p)))
  {
    if p in s.agents {
      ScheduleGrows(s.rt, s.agents[p].record);
    }
  }

  lemma AgentGrows(s: Team, p: Path)
    requires SchedulerOk(s.rt)
    ensures Grows(s.rt, DoRollBack(s, p).rt, {}) && Grows(s.rt, DoInterrupt(s, p).rt, {})
  {
    if p in s.agents {
      DiscardGrows(s.rt, s.agents[p].record);
      CancelGrows(s.rt, s.agents[p].record);
    }
  }

  lemma HandlersGrow(s: Team, id: nat)
    requires SchedulerOk(s.rt)
    ensures Grows(s.rt, DoHandlerFollowsUp(s, id).rt, {}) && Grows(s.rt, DoSlotReleased(s, id).rt, {})
  {
    ReleaseGrows(s.rt, id);
    if id in s.rt.records {
      FreshGrows(s.rt, s.rt.records[id].path);
    }
  }

  lemma StepGrows(s: Team, e: Event)
    requires SchedulerOk(s.rt)
    ensures Grows(s.rt, Step(s, e).rt, Scheduled(s, e))
  {
    match e
    case Spawn(sender, name, deferStart) => FreshGrows(s.rt, sender + [name]);
    case StartDeferred(p) => StartDeferredGrows(s, p);
    case RollBack(p) => AgentGrows(s, p);
    case RunEnds(id, ok) => FinishGrows(s.rt, id, RunStatus(s.rt, id, ok));
    case SlotReleased(id) => HandlersGrow(s, id);
    case HandlerDelivers(id) => DeliversGrows(s, id);
    case HandlerFollowsUp(id) => HandlersGrow(s, id);
    case Declare(_, _) =>
    case FollowUp(sender, target, signalAborted) => FollowUpGrows(s, sender, target, signalAborted);
    case Interrupt(target) => AgentGrows(s, target);
    case SignalFires(id) => FinishGrows(s.rt, id, Cancelled);
  }

  lemma StepKeepsApart(s: Team, e: Event)
    requires RuntimeOk(s.rt) && DeferredApart(s)
    ensures DeferredApart(Step(s, e))
  {
    StepGrows(s, e);
    var t := Step(s, e);
    forall id | id in t.deferred ensures id in t.rt.records && id !in t.rt.running && id !in t.rt.queue {
      if e.Spawn? && id !in s.deferred {
        assert id == s.rt.nextId;
      } else {
        assert id in s.deferred && id < s.rt.nextId && id !in Scheduled(s, e);
      }
    }
  }

  /** Over every run, disciplined or not: the running count is the number of
      slots held and at most four, nothing is queued while a slot is free, the
      log replays to the live statuses, and every finish is announced once. */
  lemma {:induction false} RuntimeAlwaysRight(s: Team, es: seq<Event>)
    requires RuntimeOk(s.rt) && DeferredApart(s)
    ensures RuntimeOk(Run(s, es).rt)
    ensures forall id :: id in s.rt.records ==>
      id in Run(s, es).rt.records && (s.rt.records[id].terminal.Some? ==> Run(s, es).rt.records[id].terminal == s.rt.records[id].terminal)
    decreases |es|
  {
    if es != [] {
      StepKeepsRuntime(s, es[0]);
      StepKeepsApart(s, es[0]);
      StepGrows(s, es[0]);
      RuntimeAlwaysRight(Step(s, es[0]), es[1..]);
    }
  }

  lemma FollowUpSound(s: Team, sender: Path, target: Path, signalAborted: bool)
    requires Sound(s)
    ensures Sound(DoFollowUp(s, sender, target, signalAborted))
  {
    if Wipes(s, target, signalAborted) {
      WipedSound(s, sender, target);
    } else {
      FollowUpKeeps(s, sender, target, signalAborted);
    }
  }

  lemma FollowsUpSound(s: Team, id: nat)
    requires Sound(s)
    ensures Sound(DoHandlerFollowsUp(s, id))
  {
    if id in s.delivered {
      assert id in s.rt.inflight + s.delivered;
      FollowsUpKeeps(s, id, s.rt.records[id].path);
    }
  }

  /** The tree, the records and the handlers are sound after every step, disciplined or not. */
  lemma StepSound(s: Team, e: Event)
    requires RuntimeOk(s.rt) && Sound(s)
    ensures Sound(Step(s, e))
  {
    match e
    case Spawn(sender, name, deferStart) => if deferStart { DeferKeeps(s, sender, name); } else { SpawnKeeps(s, sender, name); }
    case StartDeferred(p) => StartDeferredKeeps(s, p);
    case RollBack(p) => RollBackSound(s, p);
    case RunEnds(id, ok) => RunEndsSound(s, id, ok);
    case SlotReleased(id) => SlotReleasedKeeps(s, id);
    case HandlerDelivers(id) => HandlerDeliversSound(s, id);
    case HandlerFollowsUp(id) => FollowsUpSound(s, id);
    case Declare(p, state) => DeclareKeeps(s, p, state);
    case FollowUp(sender, target, signalAborted) => FollowUpSound(s, sender, target, signalAborted);
    case Interrupt(target) => InterruptKeeps(s, target);
    case SignalFires(id) => SignalDoomsSound(s, id);
  }

  lemma {:induction false} SoundAlways(s: Team, es: seq<Event>)
    requires RuntimeOk(s.rt) && Sound(s)
    ensures RuntimeOk(Run(s, es).rt) && Sound(Run(s, es))
    decreases |es|
  {
    if es != [] {
      StepKeepsRuntime(s, es[0]);
      StepSound(s, es[0]);
      SoundAlways(Step(s, es[0]), es[1..]);
    }
  }

  /** The tree, the records and the handlers are sound after every step, and
      every wait is covered after it exactly when it was a disciplined one. */
  lemma StepKeepsIff(s: Team, e: Event)
    requires Good(s)
    ensures RuntimeOk(Step(s, e).rt) && Sound(Step(s, e))
    ensures EveryWaitCovered(Step(s, e)) <==> Disciplined(s, e)
  {
    StepKeepsRuntime(s, e);
    StepSound(s, e);
    CoverKeptIff(s, e);
  }

  lemma CoverKeptIff(s: Team, e: Event)
    requires Good(s)
    ensures EveryWaitCovered(Step(s, e)) <==> Disciplined(s, e)
  {
    var t := Step(s, e);
    match e
    case Spawn(sender, name, deferStart) =>
      if deferStart { DeferKeeps(s, sender, name); } else { SpawnKeeps(s, sender, name); }
      HarmlessKeeps(s, t);
    case StartDeferred(p) => StartDeferredKeeps(s, p); HarmlessKeeps(s, t);
    case RollBack(p) => RollBackKeeps(s, p);
    case RunEnds(id, ok) => RunEndsIff(s, id, ok);
    case SlotReleased(id) => SlotReleasedKeeps(s, id); HarmlessKeeps(s, t);
    case HandlerDelivers(id) => HandlerDeliversKeeps(s, id);
    case HandlerFollowsUp(id) => HandlerFollowsUpKeeps(s, id);
    case Declare(p, state) => DeclareKeeps(s, p, state); HarmlessKeeps(s, t);
    case FollowUp(sender, target, signalAborted) => FollowUpIff(s, sender, target, signalAborted);
    case Interrupt(target) => InterruptKeeps(s, target); HarmlessKeeps(s, t);
    case SignalFires(id) => SignalFiresIff(s, id);
  }

  lemma RunEndsIff(s: Team, id: nat, ok: bool)
    requires Sound(s) && EveryWaitCovered(s)
    ensures Sound(DoRunEnds(s, id, ok))
    ensures EveryWaitCovered(DoRunEnds(s, id, ok)) <==> (EndsWaiting(s, id, ok) ==> StillPending(s, s.rt.records[id].path))
  {
    RunEndsSound(s, id, ok);
    if EndsWaiting(s, id, ok) {
      RunEndsWaiting(s, id, ok);
    } else {
      HarmlessKeeps(s, DoRunEnds(s, id, ok));
    }
  }

  lemma SignalFiresIff(s: Team, id: nat)
    requires Sound(s) && EveryWaitCovered(s)
    ensures Sound(s.(rt := RequestCancel(s.rt, id)))
    ensures EveryWaitCovered(s.(rt := RequestCancel(s.rt, id))) <==> (Dooms(s, id) ==> Spared(s, s.rt.records[id].path))
  {
    SignalDoomsSound(s, id);
    if Dooms(s, id) {
      QueuedSignalIff(s, id);
    } else {
      SignalFiresKeeps(s, id);
      HarmlessKeeps(s, s.(rt := RequestCancel(s.rt, id)));
    }
  }

  lemma FollowUpIff(s: Team, sender: Path, target: Path, signalAborted: bool)
    requires Sound(s) && EveryWaitCovered(s)
    ensures Sound(DoFollowUp(s, sender, target, signalAborted))
    ensures EveryWaitCovered(DoFollowUp(s, sender, target, signalAborted)) <==>
      (Wipes(s, target, signalAborted) ==> s.agents[target].record in s.rt.inflight || Spared(s, target))
  {
    if Wipes(s, target, signalAborted) {
      WipedSound(s, sender, target);
      AbortedFollowUpIff(s, sender, target);
    } else {
      FollowUpKeeps(s, sender, target, signalAborted);
      HarmlessKeeps(s, DoFollowUp(s, sender, target, signalAborted));
    }
  }

  /** Over whole runs: every wait is covered in every state of a run exactly when
      every step of it is disciplined. */
  lemma {:induction false} WaitsStayCoveredIff(s: Team, es: seq<Event>)
    requires Good(s)
    ensures (forall k :: 0 <= k <= |es| ==> EveryWaitCovered(Run(s, es[..k]))) <==> DisciplinedRun(s, es)
    ensures DisciplinedRun(s, es) ==> Good(Run(s, es))
    decreases |es|
  {
    if es == [] {
      assert forall k :: 0 <= k <= |es| ==> es[..k] == [];
    } else {
      var t := Step(s, es[0]);
      StepKeepsIff(s, es[0]);
      RunPrefixes(s, t, es);
      if Disciplined(s, es[0]) {
        WaitsStayCoveredIff(t, es[1..]);
        PrefixesShift(s, t, es);
      } else {
        assert !EveryWaitCovered(Run(s, es[..1]));
      }
    }
  }

  lemma RunPrefixes(s: Team, t: Team, es: seq<Event>)
    requires es != [] && t == Step(s, es[0])
    ensures Run(s, es[..0]) == s && Run(s, es[..1]) == t
    ensures forall k :: 1 <= k <= |es| ==> Run(s, es[..k]) == Run(t, es[1..][..k - 1])
  {
    forall k | 1 <= k <= |es| ensures Run(s, es[..k]) == Run(t, es[1..][..k - 1]) {
      assert es[..k][1..] == es[1..][..k - 1] && es[..k][0] == es[0];
    }
    assert es[1..][..0] == [];
  }

  lemma PrefixesShift(s: Team, t: Team, es: seq<Event>)
    requires es != [] && EveryWaitCovered(s)
    requires Run(s, es[..0]) == s && forall k :: 1 <= k <= |es| ==> Run(s, es[..k]) == Run(t, es[1..][..k - 1])
    ensures (forall k :: 0 <= k <= |es| ==> EveryWaitCovered(Run(s, es[..k]))) <==>
      (forall k :: 0 <= k <= |es[1..]| ==> EveryWaitCovered(Run(t, es[1..][..k])))
  {
    if forall k :: 0 <= k <= |es| ==> EveryWaitCovered(Run(s, es[..k])) {
      forall k | 0 <= k <= |es[1..]| ensures EveryWaitCovered(Run(t, es[1..][..k])) {
        assert Run(s, es[..k + 1]) == Run(t, es[1..][..k + 1 - 1]);
      }
    }
  }

  // ---------------------------------------------------------------- theorems

  /** Agents strictly below p in the tree. */
  function Below(s: Team, p: Path): set<Path> {
    set q | q in s.agents && p < q
  }

  /** The agent's run executes in a slot or is queued, or its finish handler is under way. */
  predicate AtWork(s: Team, q: Path) {
    && q in s.agents
    && var id := s.agents[q].record;
       (Unfinished(s.rt, id) && (id in s.rt.running || (id in s.rt.queue && !s.rt.records[id].cancelRequested))) || id in s.rt.inflight + s.delivered
  }

  /** Nothing runs, nothing is queued or about to start, and no handler is under way. */
  predicate AtRest(s: Team) {
    s.rt.running == {} && s.rt.queue == [] && s.rt.inflight == {} && s.delivered == {} && s.deferred == {}
  }

  /** Follow the debts down the tree: under every waiting agent there is an
      agent whose run is executing or queued, or whose result or next follow-up
      is on the way. */
  lemma {:induction false} WakerBelow(s: Team, p: Path) returns (q: Path)
    requires Sound(s) && EveryWaitCovered(s) && IsWaiting(s, p)
    ensures p <= q && AtWork(s, q)
    ensures p == q ==> OwesItself(s, q)
    decreases |Below(s, p)|
  {
    if OwesItself(s, p) {
      q := p;
    } else {
      var c :| c in s.agents && IsChild(c, p) && Owes(s, c);
      assert c == p + [c[|c| - 1]];
      if IsWaiting(s, c) {
        assert c in Below(s, p) && c !in Below(s, c);
        assert Below(s, c) < Below(s, p);
        SmallerSet(Below(s, c), Below(s, p));
        q := WakerBelow(s, c);
      } else {
        q := c;
      }
    }
  }

  lemma SmallerSet(a: set<Path>, b: set<Path>)
    requires a < b
    ensures |a| < |b|
  {
    assert b == a + (b - a);
  }

  /** A team never stalls.  In every state of a disciplined run each waiting
      agent has an agent at or below it whose run is executing or queued, or
      whose finish handler is still under way; and if anybody waits, a run
      holds a slot or a handler is under way, so the team is not at rest. */
  lemma TeamNeverStalls(es: seq<Event>)
    requires DisciplinedRun(Init(), es)
    ensures var s := Run(Init(), es); forall p :: IsWaiting(s, p) ==>
      && (exists q :: p <= q && AtWork(s, q) && (p == q ==> s.agents[p].pending != []))
      && (s.rt.running != {} || s.rt.inflight != {} || s.delivered != {})
  {
    assert Good(Init());
    WaitsStayCoveredIff(Init(), es);
    var s := Run(Init(), es);
    forall p | IsWaiting(s, p)
      ensures exists q :: p <= q && AtWork(s, q) && (p == q ==> s.agents[p].pending != [])
      ensures s.rt.running != {} || s.rt.inflight != {} || s.delivered != {}
    {
      var q := WakerBelow(s, p);
    }
  }


  /** Scheduler, log and notices, spelled out for every reachable state. */
  lemma SchedulerOverEveryRun(es: seq<Event>)
    ensures var rt := Run(Init(), es).rt;
      && rt.runningCount == |rt.running| <= MAX_BACKGROUND_CONCURRENCY
      && (rt.queue != [] ==> |rt.running| == MAX_BACKGROUND_CONCURRENCY)
      && Latest(rt.log) == (map id | id in rt.records :: Label(rt.records[id]))
      && (forall i, j :: 0 <= i < j < |rt.emitted| ==> rt.emitted[i].0 != rt.emitted[j].0)
      && (forall id, t :: (id, t) in rt.emitted <==> id in rt.records && rt.records[id].terminal == Some(t))
  {
    assert RuntimeOk(Init().rt);
    RuntimeAlwaysRight(Init(), es);
  }

  // ---------------------------------------------------------------- the coordinator itself

  class TeamCoordinator {
    const runtime: SubagentRuntime
    var agents: map<Path, Agent>
    var delivered: set<nat>
    var deferred: set<nat>

    function View(): Team
      reads this, runtime
    {
      Team(runtime.View(), agents, delivered, deferred)
    }

    constructor (runtime: SubagentRuntime)
      requires runtime.View() == InitRuntime()
      ensures this.runtime == runtime && View() == Init() && Good(View())
    {
      this.runtime := runtime;
      agents, delivered, deferred := map[], {}, {};
    }

    method SpawnAgent(sender: Path, name: string, deferStart: bool) returns (spawned: bool)
      modifies this, runtime
      ensures View() == DoSpawn(old(View()), sender, name, deferStart)
      ensures spawned == (sender + [name] !in old(agents)
        && (sender == [] || (sender in old(agents) && old(agents)[sender].record !in old(deferred) && !deferStart)))
    {
      var path := sender + [name];
      if path in agents || (sender != [] && (sender !in agents || agents[sender].record in deferred || deferStart)) {
        return false;
      }
      var id := runtime.AddRecord(path);
      agents := agents[path := Agent(id, None, [])];
      if deferStart {
        deferred := deferred + {id};
      } else {
        var _ := runtime.ScheduleBackgroundTask(id);
      }
      return true;
    }

    method StartMember(path: Path)
      modifies this, runtime
      ensures View() == DoStartDeferred(old(View()), path)
    {
      if path in agents && agents[path].record in deferred {
        var id := agents[path].record;
        deferred := deferred - {id};
        var _ := runtime.ScheduleBackgroundTask(id);
      }
    }

    method RollBackMember(path: Path)
      modifies this, runtime
      ensures View() == DoRollBack(old(View()), path)
    {
      if path in agents && agents[path].record in deferred {
        var id := agents[path].record;
        agents := agents - {path};
        deferred := deferred - {id};
        runtime.DiscardRun(id);
      }
    }

    method ReactivateAgent(path: Path)
      requires path in agents
      modifies this, runtime
      ensures View() == Reactivate(old(View()), path)
    {
      var cleared := agents[path].(report := None);
      var id := runtime.AddRecord(path);
      agents := agents[path := cleared.(record := id)];
      var _ := runtime.ScheduleBackgroundTask(id);
    }

    /** The part of the finish handler that runs after the message flush. */
    method HandleFinished(id: nat)
      modifies this, runtime
      ensures View() == DoHandlerDelivers(old(View()), id)
    {
      if id !in runtime.inflight || id !in runtime.records || runtime.records[id].path == [] {
        return;
      }
      var record := runtime.records[id];
      var path := record.path;
      runtime.inflight := runtime.inflight - {id};
      if path !in agents {
        return;
      }
      var quiet := Quiet(View(), path);
      delivered := delivered + {id};
      if record.terminal != Some(Completed) || !quiet {
        var parent := Parent(path);
        if parent in agents {
          var parentStatus := StatusOf(View(), parent);
          if CanReceive(parentStatus) {
            ReactivateAgent(parent);
          } else if parentStatus.Queued? {
            agents := agents[parent := agents[parent].(pending := agents[parent].pending + [path])];
          }
        }
      }
    }

    /** The last part of the finish handler. */
    method TakeNextFollowUp(id: nat)
      modifies this, runtime
      ensures View() == DoHandlerFollowsUp(old(View()), id)
    {
      if id !in delivered || id !in runtime.records {
        return;
      }
      var record := runtime.records[id];
      var path := record.path;
      delivered := delivered - {id};
      if path !in agents {
        return;
      }
      if record.terminal != Some(Completed) {
        agents := agents[path := agents[path].(pending := [])];
      } else if agents[path].pending != [] {
        agents := agents[path := agents[path].(pending := agents[path].pending[1..])];
        if CanReceive(StatusOf(View(), path)) {
          ReactivateAgent(path);
        }
      }
    }

    /** A report of `waiting` is refused unless a child is pending. */
    method TeamReport(path: Path, state: ReportState) returns (recorded: bool)
      modifies this
      ensures View() == DoDeclare(old(View()), path, state)
      ensures recorded && state == Waiting ==> HasPendingChild(old(View()), path)
    {
      if path !in agents || agents[path].record !in runtime.runningBackgroundIds || !Unfinished(runtime.View(), agents[path].record) {
        return false;
      }
      if state == Waiting && !HasPendingChild(View(), path) {
        return false;
      }
      agents := agents[path := agents[path].(report := Some(state))];
      return true;
    }

    method TeamFollowUp(sender: Path, target: Path, signalAborted: bool)
      modifies this, runtime
      ensures View() == DoFollowUp(old(View()), sender, target, signalAborted)
    {
      if target !in agents {
        return;
      }
      var current := StatusOf(View(), target);
      if current.Queued? {
        var promoted := runtime.PrioritizeBackground(agents[target].record);
        agents := agents[target := agents[target].(pending := agents[target].pending + [sender])];
      } else if CanReceive(current) {
        if signalAborted {
          agents := agents[target := agents[target].(report := None)];
        } else {
          ReactivateAgent(target);
        }
      }
    }

    method TeamInterrupt(target: Path)
      modifies runtime
      ensures View() == DoInterrupt(old(View()), target)
    {
      if target in agents {
        runtime.CancelRun(agents[target].record);
      }
    }
  }
}
