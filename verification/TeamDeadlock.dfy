/** What a stall means: a waiting agent at or below which nothing runs, is queued
    or has a handler under way.  It lasts until somebody outside steps in; and it
    does not come about as long as every wait is covered.
 */
module TeamDeadlock {
  import opened Subagents
  import opened SchedulerOrder
  import opened TeamCoordination

  /** Something will still happen to the record by itself. */
  predicate Active(s: Team, id: nat) {
    id in s.rt.records && (
    || (Unfinished(s.rt, id) && (id in s.rt.running || id in s.deferred || (id in s.rt.queue && !s.rt.records[id].cancelRequested)))
    || id in s.rt.inflight || id in s.delivered)
  }

  predicate Under(s: Team, id: nat, p: Path) {
    id in s.rt.records && p <= s.rt.records[id].path
  }

  /** p waits, and no run of an agent at or below it is active. */
  ghost predicate Stalled(s: Team, p: Path) {
    IsWaiting(s, p) && forall id :: Under(s, id, p) ==> !Active(s, id)
  }

  /** The event is no one's act upon an agent at or below p. */
  predicate Elsewhere(e: Event, p: Path) {
    match e
    case Spawn(sender, _, _) => !(p <= sender)
    case FollowUp(_, target, _) => !(p <= target)
    case Interrupt(target) => !(p <= target)
    case _ => true
  }

  // ---------------------------------------------------------------- what a step leaves alone

  /** What is active below p after the step was active below p before it, and p is as it was. */
  ghost predicate Spares(s: Team, t: Team, p: Path) {
    && p in s.agents && p in t.agents && t.agents[p] == s.agents[p]
    && s.agents[p].record in s.rt.records && s.agents[p].record in t.rt.records
    && t.rt.records[s.agents[p].record].terminal == s.rt.records[s.agents[p].record].terminal
    && forall id :: Under(t, id, p) && Active(t, id) ==> Under(s, id, p) && Active(s, id)
  }

  lemma SparedStalls(s: Team, t: Team, p: Path)
    requires TreeOk(s) && Stalled(s, p) && Spares(s, t, p)
    ensures Stalled(t, p)
  {
  }

  lemma NewRunSpares(s: Team, t: Team, q: Path, id: nat, p: Path)
    requires TreeOk(s) && Stalled(s, p) && NewRun(s, t, q, id) && !(p <= q)
    ensures Spares(s, t, p)
  {
    assert q != p && s.agents[p].record in s.rt.records;
    forall x | Under(t, x, p) && Active(t, x) ensures Under(s, x, p) && Active(s, x) {
      assert x != id && t.rt.records[x] == s.rt.records[x];
    }
  }

  lemma EditSpares(s: Team, t: Team, q: Path, p: Path)
    requires TreeOk(s) && Stalled(s, p) && Edits(s, t, q) && q != p
    ensures Spares(s, t, p)
  {
  }

  lemma SparesTrans(s: Team, mid: Team, t: Team, p: Path)
    requires p in s.agents && s.agents[p].record in s.rt.records && Spares(s, mid, p) && Spares(mid, t, p)
    ensures Spares(s, t, p)
  {
  }

  /** One record changes, gets a place or loses one; it does not lie below p. */
  ghost predicate Touches(s: Team, t: Team, id: nat) {
    && id in s.rt.records && id in t.rt.records && t.rt.records == s.rt.records[id := t.rt.records[id]]
    && t.rt.records[id].path == s.rt.records[id].path
    && (forall x :: x != id && x in t.rt.running ==> x in s.rt.running)
    && (forall x :: x != id && x in t.rt.queue ==> x in s.rt.queue)
    && t.rt.inflight <= s.rt.inflight + {id} && t.delivered <= s.delivered + {id} && t.deferred <= s.deferred
  }

  lemma TouchSpares(s: Team, t: Team, id: nat, p: Path)
    requires TreeOk(s) && Stalled(s, p) && Touches(s, t, id) && !Under(s, id, p) && p in t.agents && t.agents[p] == s.agents[p]
    ensures Spares(s, t, p)
  {
    assert s.rt.records[s.agents[p].record].path == p;
    forall x | Under(t, x, p) && Active(t, x) ensures Under(s, x, p) && Active(s, x) {
      assert x != id && t.rt.records[x] == s.rt.records[x];
    }
  }

  // ---------------------------------------------------------------- every event

  lemma SpawnSpares(s: Team, sender: Path, name: string, deferStart: bool, p: Path)
    requires Sound(s) && Stalled(s, p) && !(p <= sender)
    ensures Spares(s, DoSpawn(s, sender, name, deferStart), p)
  {
    var t, q := DoSpawn(s, sender, name, deferStart), sender + [name];
    if t != s {
      if deferStart {
        assert q != p ==> !(p <= q);
        assert q !in s.agents;
        forall x | Under(t, x, p) && Active(t, x) ensures Under(s, x, p) && Active(s, x) {
          assert x != s.rt.nextId && t.rt.records[x] == s.rt.records[x];
        }
      } else {
        SpawnIsNewRun(s, sender, name);
        UnderNew(sender, name, p, s);
        NewRunSpares(s, t, q, s.rt.nextId, p);
      }
    }
  }

  lemma PrefixOfSnoc(p: Path, q: Path, name: string)
    requires p <= q + [name]
    ensures p <= q || p == q + [name]
  {
    assert |p| <= |q| ==> p == q[..|p|];
  }

  lemma UnderNew(sender: Path, name: string, p: Path, s: Team)
    requires !(p <= sender) && p in s.agents && sender + [name] !in s.agents
    ensures !(p <= sender + [name])
  {
    if p <= sender + [name] {
      PrefixOfSnoc(p, sender, name);
      assert false;
    }
  }

  lemma StartMemberSpares(s: Team, q: Path, p: Path)
    requires Sound(s) && Stalled(s, p) && q in s.agents && s.agents[q].record in s.deferred
    ensures Spares(s, DoStartDeferred(s, q), p)
  {
    var id := s.agents[q].record;
    assert Active(s, id) && !Under(s, id, p) && q != p;
    ScheduleScheduler(s.rt, id);
    assert Touches(s, DoStartDeferred(s, q), id);
    TouchSpares(s, DoStartDeferred(s, q), id, p);
  }

  lemma RollBackSpares(s: Team, q: Path, p: Path)
    requires Sound(s) && Stalled(s, p) && q in s.agents && s.agents[q].record in s.deferred
    ensures Spares(s, DoRollBack(s, q), p)
  {
    var id := s.agents[q].record;
    assert Active(s, id) && !Under(s, id, p) && q != p;
    RollBackRuns(s, q);
    assert Touches(s, DoRollBack(s, q), id);
    TouchSpares(s, DoRollBack(s, q), id, p);
  }

  lemma RunEndSpares(s: Team, id: nat, ok: bool, p: Path)
    requires Sound(s) && Stalled(s, p)
    ensures Spares(s, DoRunEnds(s, id, ok), p)
  {
    if id in s.rt.running && Unfinished(s.rt, id) {
      assert Active(s, id) && !Under(s, id, p);
      assert Touches(s, DoRunEnds(s, id, ok), id);
      TouchSpares(s, DoRunEnds(s, id, ok), id, p);
    }
  }

  lemma ReleaseSpares(s: Team, id: nat, p: Path)
    requires RuntimeOk(s.rt) && Sound(s) && Stalled(s, p)
    ensures Spares(s, DoSlotReleased(s, id), p)
  {
    if id in s.rt.running && !Unfinished(s.rt, id) {
      var t, k := DoSlotReleased(s, id), FirstWanted(s.rt, s.rt.queue);
      ReleaseStartsFirstWanted(s.rt, id);
      ReleaseKeepsHandlers(s.rt, id);
      FirstIsWanted(s.rt, s.rt.queue);
    }
  }

  lemma {:induction false} FirstIsWanted(rt: Runtime, q: seq<nat>)
    ensures FirstWanted(rt, q) < |q| ==> Wanted(rt, q[FirstWanted(rt, q)])
  {
    if q != [] && !Wanted(rt, q[0]) {
      FirstIsWanted(rt, q[1..]);
    }
  }

  lemma {:induction false} StartNextKeepsHandlers(rt: Runtime)
    requires rt.queue == [] || rt.runningCount < MAX_BACKGROUND_CONCURRENCY
    ensures StartNext(rt).inflight == rt.inflight
    decreases |rt.queue|
  {
    if rt.queue != [] {
      StartNextKeepsHandlers(rt.(queue := rt.queue[1..]));
    }
  }

  lemma ReleaseKeepsHandlers(rt: Runtime, id: nat)
    requires RuntimeOk(rt) && id in rt.running
    ensures ReleaseSlot(rt, id).inflight == rt.inflight
  {
    StartNextKeepsHandlers(rt.(running := rt.running - {id}, runningCount := rt.runningCount - 1));
  }

  lemma ReactivateSpares(s: Team, q: Path, p: Path)
    requires Sound(s) && Stalled(s, p) && q in s.agents && CanReceive(StatusOf(s, q)) && !(p <= q)
    ensures Spares(s, Reactivate(s, q), p)
  {
    ReactivateIsNewRun(s, q);
    NewRunSpares(s, Reactivate(s, q), q, s.rt.nextId, p);
  }

  lemma DeliverSpares(s: Team, c: Path, p: Path)
    requires Sound(s) && Stalled(s, p) && c in s.agents && !(p <= c)
    ensures Spares(s, DeliverFinalAnswer(s, c), p)
  {
    var q := Parent(c);
    assert p <= q ==> p <= c;
    if q in s.agents {
      if CanReceive(StatusOf(s, q)) {
        ReactivateSpares(s, q, p);
      } else if StatusOf(s, q).Queued? {
        EditSpares(s, DeliverFinalAnswer(s, c), q, p);
      }
    }
  }

  lemma HandlerDeliversSpares(s: Team, id: nat, p: Path)
    requires Sound(s) && Stalled(s, p)
    ensures Spares(s, DoHandlerDelivers(s, id), p)
  {
    if id in s.rt.inflight {
      assert id in s.rt.inflight + s.delivered;
      assert Active(s, id) && !Under(s, id, p);
      var c, mid := s.rt.records[id].path, HandlerMoved(s, id);
      HandlerMovedSound(s, id);
      assert Touches(s, mid, id);
      TouchSpares(s, mid, id, p);
      SparedStalls(s, mid, p);
      DeliverSpares(mid, c, p);
      SparesTrans(s, mid, DeliverFinalAnswer(mid, c), p);
    }
  }

  lemma HandlerFollowsUpSpares(s: Team, id: nat, p: Path)
    requires Sound(s) && Stalled(s, p)
    ensures Spares(s, DoHandlerFollowsUp(s, id), p)
  {
    if id in s.delivered {
      assert id in s.rt.inflight + s.delivered;
      assert Active(s, id) && !Under(s, id, p);
      var c, gone := s.rt.records[id].path, HandlerGone(s, id);
      HandlerGoneKeeps(s, id, c);
      assert Touches(s, gone, id);
      TouchSpares(s, gone, id, p);
      SparedStalls(s, gone, p);
      FollowsUpSpares(s, gone, id, c, p);
    }
  }

  lemma FollowsUpSpares(s: Team, gone: Team, id: nat, c: Path, p: Path)
    requires Sound(s) && id in s.delivered && id in s.rt.records && s.rt.records[id].path == c && c in s.agents && !(p <= c)
    requires gone == HandlerGone(s, id) && Sound(gone) && Stalled(s, p) && Spares(s, gone, p) && Stalled(gone, p)
    ensures Spares(s, DoHandlerFollowsUp(s, id), p)
  {
    var t := DoHandlerFollowsUp(s, id);
    if s.rt.records[id].terminal != Some(Completed) {
      EditSpares(gone, t, c, p);
      SparesTrans(s, gone, t, p);
    } else if s.agents[c].pending != [] {
      var taken := gone.(agents := s.agents[c := s.agents[c].(pending := s.agents[c].pending[1..])]);
      TakeFollowUp(gone, taken, c);
      EditSpares(gone, taken, c, p);
      SparesTrans(s, gone, taken, p);
      if CanReceive(StatusOf(taken, c)) {
        SparedStalls(gone, taken, p);
        ReactivateSpares(taken, c, p);
        SparesTrans(s, taken, t, p);
      }
    }
  }

  lemma DeclareSpares(s: Team, q: Path, state: ReportState, p: Path)
    requires Sound(s) && Stalled(s, p)
    ensures Spares(s, DoDeclare(s, q, state), p)
  {
    if DoDeclare(s, q, state) != s {
      assert Active(s, s.agents[q].record) && q != p;
      EditSpares(s, DoDeclare(s, q, state), q, p);
    }
  }

  lemma FollowUpSpares(s: Team, sender: Path, target: Path, signalAborted: bool, p: Path)
    requires Sound(s) && Stalled(s, p) && !(p <= target)
    ensures Spares(s, DoFollowUp(s, sender, target, signalAborted), p)
  {
    var t := DoFollowUp(s, sender, target, signalAborted);
    if target in s.agents {
      if StatusOf(s, target).Queued? {
        PrioritizeScheduler(s.rt, s.agents[target].record);
        EditSpares(s, t, target, p);
      } else if CanReceive(StatusOf(s, target)) {
        if signalAborted {
          EditSpares(s, t, target, p);
        } else {
          ReactivateSpares(s, target, p);
        }
      }
    }
  }

  lemma InterruptSpares(s: Team, target: Path, p: Path)
    requires Sound(s) && Stalled(s, p) && !(p <= target)
    ensures Spares(s, DoInterrupt(s, target), p)
  {
    if target in s.agents && Unfinished(s.rt, s.agents[target].record) {
      var id := s.agents[target].record;
      RemovedMembers(s.rt.queue, id);
      assert Touches(s, DoInterrupt(s, target), id);
      TouchSpares(s, DoInterrupt(s, target), id, p);
    }
  }

  lemma SignalSpares(s: Team, id: nat, p: Path)
    requires Sound(s) && Stalled(s, p)
    ensures Spares(s, s.(rt := RequestCancel(s.rt, id)), p)
  {
  }

  lemma StepSpares(s: Team, e: Event, p: Path)
    requires RuntimeOk(s.rt) && Sound(s) && Stalled(s, p) && Elsewhere(e, p)
    ensures Spares(s, Step(s, e), p)
  {
    match e
    case Spawn(sender, name, deferStart) => SpawnSpares(s, sender, name, deferStart, p);
    case StartDeferred(q) => if q in s.agents && s.agents[q].record in s.deferred { StartMemberSpares(s, q, p); }
    case RollBack(q) => if q in s.agents && s.agents[q].record in s.deferred { RollBackSpares(s, q, p); }
    case RunEnds(id, ok) => RunEndSpares(s, id, ok, p);
    case SlotReleased(id) => ReleaseSpares(s, id, p);
    case HandlerDelivers(id) => HandlerDeliversSpares(s, id, p);
    case HandlerFollowsUp(id) => HandlerFollowsUpSpares(s, id, p);
    case Declare(q, state) => DeclareSpares(s, q, state, p);
    case FollowUp(sender, target, signalAborted) => FollowUpSpares(s, sender, target, signalAborted, p);
    case Interrupt(target) => InterruptSpares(s, target, p);
    case SignalFires(id) => SignalSpares(s, id, p);
  }

  // ---------------------------------------------------------------- the main results

  lemma {:induction false} RunStaysStalled(s: Team, es: seq<Event>, p: Path)
    requires RuntimeOk(s.rt) && Sound(s) && Stalled(s, p) && forall i :: 0 <= i < |es| ==> Elsewhere(es[i], p)
    ensures Stalled(Run(s, es), p)
    decreases |es|
  {
    if es != [] {
      StepSpares(s, es[0], p);
      SparedStalls(s, Step(s, es[0]), p);
      StepKeepsRuntime(s, es[0]);
      StepSound(s, es[0]);
      RunStaysStalled(Step(s, es[0]), es[1..], p);
    }
  }

  /** A stall lasts: once nothing at or below a waiting agent is active it waits in
      every later state, whatever the rest of the team does, until somebody
      spawns, follows up or interrupts at or below it. */
  lemma StalledForGood(es: seq<Event>, more: seq<Event>, p: Path)
    requires Stalled(Run(Init(), es), p) && forall i :: 0 <= i < |more| ==> Elsewhere(more[i], p)
    ensures Stalled(Run(Run(Init(), es), more), p)
  {
    assert Good(Init());
    SoundAlways(Init(), es);
    RunStaysStalled(Run(Init(), es), more, p);
  }

  /** A disciplined run never stalls anyone. */
  lemma DisciplinedNeverStalls(es: seq<Event>, p: Path)
    requires DisciplinedRun(Init(), es)
    ensures !Stalled(Run(Init(), es), p)
  {
    assert Good(Init());
    WaitsStayCoveredIff(Init(), es);
    var s := Run(Init(), es);
    if IsWaiting(s, p) {
      var q := WakerBelow(s, p);
      assert Under(s, s.agents[q].record, p) && Active(s, s.agents[q].record);
    }
  }

  /** Whoever waits while the team is at rest is stalled. */
  lemma RestIsStall(s: Team, p: Path)
    requires AtRest(s) && IsWaiting(s, p)
    ensures Stalled(s, p)
  {
  }
}
