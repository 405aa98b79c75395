/** What the events of a team do to its agents: how a run ends, what an interrupt and
    a fired signal lead to, which report an agent has, and who joins and leaves.
 */
module TeamOutcomes {
  import opened Subagents
  import opened TeamCoordination
  import opened TeamInbox

  // ---------------------------------------------------------------- how a run ends

  /** A run that ends is completed or failed, unless a cancel was asked for; its finish
      handler is under way then, and its slot is held until its promise settles. */
  lemma RunEndIs(es: seq<Event>, id: nat, ok: bool)
    requires id in Run(Init(), es).rt.running && Unfinished(Run(Init(), es).rt, id)
    ensures var s := Run(Init(), es);
      var t := Step(s, RunEnds(id, ok));
      && id in t.rt.records && id in t.rt.running && id in t.rt.inflight
      && t.rt.records[id].terminal == Some(if s.rt.records[id].cancelRequested then Cancelled else if ok then Completed else Failed)
  {
    Reached(es);
  }

  /** The status an agent's run leaves it in: cancelled if a cancel was asked for, else
      failed, else what its report says. */
  lemma StatusAfterRun(es: seq<Event>, p: Path, ok: bool)
    requires p in Run(Init(), es).agents
    requires Run(Init(), es).agents[p].record in Run(Init(), es).rt.running && Unfinished(Run(Init(), es).rt, Run(Init(), es).agents[p].record)
    ensures var s := Run(Init(), es);
      var id := s.agents[p].record;
      var t := Step(s, RunEnds(id, ok));
      var report := s.agents[p].report;
      && p in t.agents
      && (StatusOf(t, p) == WasCancelled <==> s.rt.records[id].cancelRequested)
      && (StatusOf(t, p) == HasFailed <==> !s.rt.records[id].cancelRequested && !ok)
      && (StatusOf(t, p) == WaitingDecision <==> !s.rt.records[id].cancelRequested && ok && report == Some(Blocked))
      && (StatusOf(t, p) == WaitingResult <==> !s.rt.records[id].cancelRequested && ok && report == Some(Waiting))
      && (StatusOf(t, p) == Idle <==> !s.rt.records[id].cancelRequested && ok && report != Some(Blocked) && report != Some(Waiting))
  {
    Reached(es);
    RunEndIs(es, Run(Init(), es).agents[p].record, ok);
  }

  /** A run whose cancel was asked for has not ended, or has ended as cancelled. */
  predicate Cancelling(s: Team, id: nat) {
    id in s.rt.records && s.rt.records[id].cancelRequested && (s.rt.records[id].terminal == None || s.rt.records[id].terminal == Some(Cancelled))
  }

  /** What a step of the runtime may do to a record whose cancel was asked for. */
  ghost predicate KeepsCancelling(a: Runtime, b: Runtime, id: nat) {
    id in a.records && id in b.records && b.records[id].cancelRequested && (b.records[id].terminal == a.records[id].terminal || b.records[id].terminal == Some(Cancelled))
  }

  lemma FinishCancelling(rt: Runtime, id: nat, x: nat, t: Terminal)
    requires id in rt.records && rt.records[id].cancelRequested && (x == id ==> t == Cancelled)
    ensures KeepsCancelling(rt, Finish(rt, x, t), id)
  {
  }

  lemma {:induction false} StartNextCancelling(rt: Runtime, id: nat)
    requires id in rt.records && rt.records[id].cancelRequested
    ensures KeepsCancelling(rt, StartNext(rt), id)
    decreases |rt.queue|
  {
    if rt.queue != [] {
      StartNextCancelling(rt.(queue := rt.queue[1..]), id);
    }
  }

  lemma NewRecordCancelling(rt: Runtime, id: nat, p: Path)
    requires SchedulerOk(rt) && id in rt.records && rt.records[id].cancelRequested
    ensures KeepsCancelling(rt, Schedule(CreateRecord(rt, p), rt.nextId), id) && KeepsCancelling(rt, CreateRecord(rt, p), id)
  {
  }

  lemma MailCancelling(s: Team, e: Event, id: nat)
    requires SchedulerOk(s.rt) && Mails(e) && id in s.rt.records && s.rt.records[id].cancelRequested
    ensures KeepsCancelling(s.rt, Step(s, e).rt, id)
  {
    if e.HandlerDelivers? {
      DeliversCancelling(s, e.id, id);
    } else if e.FollowUp? {
      NewRecordCancelling(s.rt, id, e.target);
    } else {
      FollowsUpCancelling(s, e.id, id);
    }
  }

  lemma DeliversCancelling(s: Team, x: nat, id: nat)
    requires SchedulerOk(s.rt) && id in s.rt.records && s.rt.records[id].cancelRequested
    ensures KeepsCancelling(s.rt, DoHandlerDelivers(s, x).rt, id)
  {
    if x in s.rt.records && s.rt.records[x].path != [] {
      var woken := s.rt.(inflight := s.rt.inflight - {x});
      assert SchedulerOk(woken);
      NewRecordCancelling(woken, id, Parent(s.rt.records[x].path));
    }
  }

  lemma FollowsUpCancelling(s: Team, x: nat, id: nat)
    requires SchedulerOk(s.rt) && id in s.rt.records && s.rt.records[id].cancelRequested
    ensures KeepsCancelling(s.rt, DoHandlerFollowsUp(s, x).rt, id)
  {
    if x in s.rt.records {
      NewRecordCancelling(s.rt, id, s.rt.records[x].path);
    }
  }

  lemma OtherCancelling(s: Team, e: Event, id: nat)
    requires SchedulerOk(s.rt) && !Mails(e) && id in s.rt.records && s.rt.records[id].cancelRequested
    ensures KeepsCancelling(s.rt, Step(s, e).rt, id)
  {
    match e
    case Spawn(sender, name, _) => NewRecordCancelling(s.rt, id, sender + [name]);
    case RunEnds(x, ok) => FinishCancelling(s.rt, id, x, RunStatus(s.rt, x, ok));
    case SlotReleased(x) => StartNextCancelling(s.rt.(running := s.rt.running - {x}, runningCount := s.rt.runningCount - 1), id);
    case _ =>
  }

  lemma {:induction false} RunCancelling(s: Team, es: seq<Event>, id: nat)
    requires RuntimeOk(s.rt) && Sound(s) && Cancelling(s, id)
    ensures Cancelling(Run(s, es), id)
    decreases |es|
  {
    if es != [] {
      if Mails(es[0]) { MailCancelling(s, es[0], id); } else { OtherCancelling(s, es[0], id); }
      StepKeepsRuntime(s, es[0]);
      StepSound(s, es[0]);
      RunCancelling(Step(s, es[0]), es[1..], id);
    }
  }

  /** An interrupted run never completes and never fails: in every later state it has
      not ended, or has ended as cancelled; one that was queued ends at once. */
  lemma InterruptedIsCancelled(es: seq<Event>, p: Path, more: seq<Event>)
    requires p in Run(Init(), es).agents && Unfinished(Run(Init(), es).rt, Run(Init(), es).agents[p].record)
    ensures var s := Run(Init(), es);
      var id, t := s.agents[p].record, Step(s, Interrupt(p));
      && Cancelling(Run(t, more), id)
      && (id in s.rt.queue ==> t.rt.records[id].terminal == Some(Cancelled) && id in t.rt.inflight && id !in t.rt.queue)
  {
    var s := Run(Init(), es);
    Reached(es);
    var id, t := s.agents[p].record, Step(s, Interrupt(p));
    InterruptStep(s, p, id);
    StepKeepsRuntime(s, Interrupt(p));
    StepSound(s, Interrupt(p));
    RunCancelling(t, more, id);
  }

  lemma InterruptStep(s: Team, p: Path, id: nat)
    requires Sound(s) && p in s.agents && s.agents[p].record == id && Unfinished(s.rt, id)
    ensures var t := Step(s, Interrupt(p));
      && Cancelling(t, id)
      && (id in s.rt.queue ==> t.rt.records[id].terminal == Some(Cancelled) && id in t.rt.inflight && id !in t.rt.queue)
  {
    if id in s.rt.queue {
      RemovedMembers(s.rt.queue, id);
    }
  }

  /** So for a run whose signal fires, but one that is queued does not end by it. */
  lemma SignalledIsCancelled(es: seq<Event>, id: nat, more: seq<Event>)
    requires Unfinished(Run(Init(), es).rt, id)
    ensures var t := Step(Run(Init(), es), SignalFires(id)); Unfinished(t.rt, id) && Cancelling(Run(t, more), id)
  {
    Reached(es);
    SignalCancelling(Run(Init(), es), id, more);
  }

  lemma SignalCancelling(s: Team, id: nat, more: seq<Event>)
    requires RuntimeOk(s.rt) && Sound(s) && Unfinished(s.rt, id)
    ensures var t := Step(s, SignalFires(id)); Unfinished(t.rt, id) && Cancelling(Run(t, more), id)
  {
    var t := Step(s, SignalFires(id));
    StepKeepsRuntime(s, SignalFires(id));
    StepSound(s, SignalFires(id));
    SignalStep(s, t, id);
    RunCancelling(t, more, id);
  }

  lemma SignalStep(s: Team, t: Team, id: nat)
    requires Unfinished(s.rt, id) && t == Step(s, SignalFires(id))
    ensures Unfinished(t.rt, id) && Cancelling(t, id)
  {
  }

  // ---------------------------------------------------------------- reports

  /** The agent may make this report: its run goes on, and it waits only for a child
      that runs, is queued or waits itself. */
  predicate MayReport(s: Team, p: Path, state: ReportState) {
    && p in s.agents && s.agents[p].record in s.rt.running && Unfinished(s.rt, s.agents[p].record)
    && (state == Waiting ==> exists c :: c in s.agents && IsChild(c, p) && StatusOf(s, c) in {Running, Queued, WaitingResult})
  }

  /** The report an agent has: the last it was allowed to make, until it gets a new run
      or a follow-up with a fired signal reaches it when it can receive. */
  lemma ReportIs(s: Team, e: Event, p: Path)
    requires p in s.agents && p in Step(s, e).agents && s.agents[p].record in s.rt.records && SchedulerOk(s.rt)
    ensures var t := Step(s, e);
      t.agents[p].report ==
        if t.agents[p].record != s.agents[p].record then None
        else if e.Declare? && e.path == p && MayReport(s, p, e.state) then Some(e.state)
        else if e.FollowUp? && e.target == p && e.signalAborted && CanReceive(StatusOf(s, p)) then None
        else s.agents[p].report
  {
    if e.Declare? {
      PendingIff(s, p);
    } else if Mails(e) {
      MailReport(s, e, p);
    }
  }

  lemma PendingIff(s: Team, p: Path)
    ensures HasPendingChild(s, p) <==> exists c :: c in s.agents && IsChild(c, p) && StatusOf(s, c) in {Running, Queued, WaitingResult}
  {
  }

  lemma MailReport(s: Team, e: Event, p: Path)
    requires Mails(e) && p in s.agents && p in Step(s, e).agents && s.agents[p].record in s.rt.records && SchedulerOk(s.rt)
    ensures var t := Step(s, e);
      t.agents[p].report ==
        if t.agents[p].record != s.agents[p].record then None
        else if e.FollowUp? && e.target == p && e.signalAborted && CanReceive(StatusOf(s, p)) then None
        else s.agents[p].report
  {
    if e.HandlerDelivers? {
      DeliversReport(s, e.id, p);
    } else if e.HandlerFollowsUp? {
      FollowsUpReport(s, e.id, p);
    }
  }

  lemma DeliversReport(s: Team, id: nat, p: Path)
    requires p in s.agents && s.agents[p].record in s.rt.records && SchedulerOk(s.rt)
    ensures var t := DoHandlerDelivers(s, id);
      p in t.agents && t.agents[p].report == if t.agents[p].record != s.agents[p].record then None else s.agents[p].report
  {
  }

  lemma FollowsUpReport(s: Team, id: nat, p: Path)
    requires p in s.agents && s.agents[p].record in s.rt.records && SchedulerOk(s.rt)
    ensures var t := DoHandlerFollowsUp(s, id);
      p in t.agents && t.agents[p].report == if t.agents[p].record != s.agents[p].record then None else s.agents[p].report
  {
  }

  // ---------------------------------------------------------------- joining and leaving

  /** A new agent: its path is free, and its sender is the root, or an agent that has
      started and does not defer the start. */
  predicate MayJoin(s: Team, sender: Path, name: string, deferStart: bool) {
    && sender + [name] !in s.agents
    && (sender == [] || (sender in s.agents && s.agents[sender].record !in s.deferred && !deferStart))
  }

  /** Who joins starts at once, runs or is queued, unless its start is deferred; nobody else is touched. */
  lemma JoinIff(es: seq<Event>, sender: Path, name: string, deferStart: bool)
    ensures var s, p := Run(Init(), es), sender + [name];
      var t := Step(s, Spawn(sender, name, deferStart));
      if !MayJoin(s, sender, name, deferStart) then t == s
      else
        && p in t.agents && t.agents == s.agents[p := t.agents[p]] && t.agents[p].report == None && t.agents[p].pending == []
        && (if deferStart then t.agents[p].record in t.deferred else Resumes(s, t, p))
  {
    var s := Run(Init(), es);
    Reached(es);
    FreshSchedule(s.rt, sender + [name]);
  }

  /** A deferred member starts when told to, or is taken out again. */
  lemma MemberStarts(es: seq<Event>, p: Path)
    requires p in Run(Init(), es).agents && Run(Init(), es).agents[p].record in Run(Init(), es).deferred
    ensures var s := Run(Init(), es);
      var id, t, u := s.agents[p].record, Step(s, StartDeferred(p)), Step(s, RollBack(p));
      && id !in t.deferred && id in t.rt.records
      && (if s.rt.records[id].cancelRequested then t.rt.records[id].terminal == Some(Cancelled) else id in t.rt.running || id in t.rt.queue)
      && p !in u.agents && id !in u.deferred && u.rt.records[id].terminal == Some(Cancelled) && id !in u.rt.inflight
  {
    var s := Run(Init(), es);
    Reached(es);
    assert Unfinished(s.rt, s.agents[p].record);
  }
}
