/** What becomes of results and follow-ups: a result that is not kept quiet wakes
    its parent or joins the parent's inbox, the inbox is served in order, and an
    entry leaves it only for a run of the agent, or because the agent's run did
    not complete or the agent can no longer receive.
 */
module TeamInbox {
  import opened Subagents
  import opened TeamCoordination

  function Inbox(s: Team, p: Path): seq<Path> {
    if p in s.agents then s.agents[p].pending else []
  }

  // ---------------------------------------------------------------- what comes in and what goes out

  /** The finished run `id` of agent c has a result for c's parent. */
  predicate HasResult(s: Team, id: nat, c: Path) {
    && id in s.rt.inflight && id in s.rt.records && s.rt.records[id].path == c && c != [] && c in s.agents
    && (s.rt.records[id].terminal == Some(Completed) ==>
          && s.agents[c].report != Some(Waiting)
          && (s.agents[c].report == Some(Dropped) ==> Parent(c) in s.agents && s.agents[Parent(c)].report == Some(Waiting)))
  }

  predicate IsQueued(s: Team, p: Path) {
    p in s.agents && StatusOf(s, p).Queued?
  }

  /** What a step puts into p's inbox: the result of a child, or a follow-up, that finds p queued. */
  function Arrives(s: Team, e: Event, p: Path): seq<Path> {
    match e
    case HandlerDelivers(id) =>
      if id in s.rt.records && s.rt.records[id].path != [] && HasResult(s, id, s.rt.records[id].path)
         && Parent(s.rt.records[id].path) == p && IsQueued(s, p)
      then [s.rt.records[id].path] else []
    case FollowUp(sender, target, _) => if target == p && IsQueued(s, p) then [sender] else []
    case _ => []
  }

  /** What a step takes out of it: after its own completed run the first entry, after any other run all. */
  function Leaves(s: Team, e: Event, p: Path): seq<Path> {
    if !(e.HandlerFollowsUp? && e.id in s.delivered && e.id in s.rt.records && s.rt.records[e.id].path == p) then []
    else if s.rt.records[e.id].terminal != Some(Completed) then Inbox(s, p)
    else if Inbox(s, p) == [] then [] else [Inbox(s, p)[0]]
  }

  function ArrivedIn(s: Team, es: seq<Event>, p: Path): seq<Path>
    decreases |es|
  {
    if es == [] then [] else Arrives(s, es[0], p) + ArrivedIn(Step(s, es[0]), es[1..], p)
  }

  function LeftIn(s: Team, es: seq<Event>, p: Path): seq<Path>
    decreases |es|
  {
    if es == [] then [] else Leaves(s, es[0], p) + LeftIn(Step(s, es[0]), es[1..], p)
  }

  /** The agent starts a new run: it has a new record, which runs or is queued, and no report. */
  predicate Resumes(s: Team, t: Team, p: Path) {
    && p in t.agents && t.agents[p].report == None
    && var id := t.agents[p].record;
       id !in s.rt.records && id in t.rt.records && t.rt.records[id] == Record(p, None, false) && (id in t.rt.running || id in t.rt.queue)
  }

  // ---------------------------------------------------------------- one step

  /** A member not yet started has nothing in its inbox. */
  ghost predicate DeferredEmpty(s: Team) {
    forall p :: p in s.agents && s.agents[p].record in s.deferred ==> s.agents[p].pending == []
  }

  lemma ReactivateResumes(s: Team, p: Path)
    requires SchedulerOk(s.rt) && p in s.agents
    ensures Resumes(s, Reactivate(s, p), p)
    ensures forall q :: Inbox(Reactivate(s, p), q) == Inbox(s, q)
  {
    FreshSchedule(s.rt, p);
  }

  lemma DeliverInbox(s: Team, c: Path, p: Path)
    requires SchedulerOk(s.rt) && c != [] && c in s.agents
    ensures Inbox(DeliverFinalAnswer(s, c), p) == Inbox(s, p) + if Parent(c) == p && IsQueued(s, p) then [c] else []
    ensures Parent(c) in s.agents && CanReceive(StatusOf(s, Parent(c))) ==> Resumes(s, DeliverFinalAnswer(s, c), Parent(c))
  {
    var q := Parent(c);
    if q in s.agents && CanReceive(StatusOf(s, q)) {
      ReactivateResumes(s, q);
      assert !IsQueued(s, q);
    }
  }

  lemma QuietIff(s: Team, id: nat, c: Path)
    requires id in s.rt.inflight && id in s.rt.records && s.rt.records[id].path == c && c != [] && c in s.agents
    ensures HasResult(s, id, c) <==> !(s.rt.records[id].terminal == Some(Completed) && Quiet(s, c))
  {
  }

  lemma DeliversInbox(s: Team, id: nat, p: Path)
    requires SchedulerOk(s.rt) && TreeOk(s) && HandlersUnderWay(s)
    ensures Inbox(DoHandlerDelivers(s, id), p) == Inbox(s, p) + Arrives(s, HandlerDelivers(id), p)
  {
    if id in s.rt.inflight {
      assert id in s.rt.inflight + s.delivered;
      var c, on := s.rt.records[id].path, HandlerMoved(s, id);
      QuietIff(s, id, c);
      assert IsQueued(on, p) <==> IsQueued(s, p);
      DeliverInbox(on, c, p);
    }
  }

  lemma FollowUpInbox(s: Team, sender: Path, target: Path, signalAborted: bool, p: Path)
    requires SchedulerOk(s.rt)
    ensures Inbox(DoFollowUp(s, sender, target, signalAborted), p) == Inbox(s, p) + Arrives(s, FollowUp(sender, target, signalAborted), p)
  {
    if target in s.agents && CanReceive(StatusOf(s, target)) {
      ReactivateResumes(s, target);
      assert !IsQueued(s, target);
    }
  }

  /** The agent with its first entry taken. */
  function Took(s: Team, id: nat, c: Path): Team
    requires c in s.agents && s.agents[c].pending != []
  {
    s.(delivered := s.delivered - {id}, agents := s.agents[c := s.agents[c].(pending := s.agents[c].pending[1..])])
  }

  lemma TakenIs(s: Team, id: nat, c: Path)
    requires id in s.delivered && id in s.rt.records && s.rt.records[id].path == c && c in s.agents
    requires s.rt.records[id].terminal == Some(Completed) && s.agents[c].pending != []
    ensures DoHandlerFollowsUp(s, id) == if CanReceive(StatusOf(s, c)) then Reactivate(Took(s, id, c), c) else Took(s, id, c)
  {
    assert StatusOf(Took(s, id, c), c) == StatusOf(s, c);
  }

  lemma TakenInbox(s: Team, id: nat, c: Path)
    requires SchedulerOk(s.rt) && id in s.delivered && id in s.rt.records && s.rt.records[id].path == c && c in s.agents
    requires s.rt.records[id].terminal == Some(Completed) && s.agents[c].pending != []
    ensures forall p :: Inbox(DoHandlerFollowsUp(s, id), p) == if p == c then Inbox(s, c)[1..] else Inbox(s, p)
    ensures CanReceive(StatusOf(s, c)) ==> Resumes(s, DoHandlerFollowsUp(s, id), c)
  {
    TakenIs(s, id, c);
    ReactivateResumes(Took(s, id, c), c);
    assert forall p :: Inbox(Took(s, id, c), p) == if p == c then Inbox(s, c)[1..] else Inbox(s, p);
  }

  lemma FollowsUpInbox(s: Team, id: nat, p: Path)
    requires SchedulerOk(s.rt) && HandlersUnderWay(s)
    ensures Inbox(s, p) == Leaves(s, HandlerFollowsUp(id), p) + Inbox(DoHandlerFollowsUp(s, id), p)
  {
    if id in s.delivered {
      assert id in s.rt.inflight + s.delivered;
      var c := s.rt.records[id].path;
      if s.rt.records[id].terminal == Some(Completed) && s.agents[c].pending != [] {
        TakenInbox(s, id, c);
      }
    }
  }

  predicate Mails(e: Event) {
    e.HandlerDelivers? || e.FollowUp? || e.HandlerFollowsUp?
  }

  lemma OtherInbox(s: Team, e: Event, p: Path)
    requires DeferredEmpty(s) && !Mails(e)
    ensures Inbox(Step(s, e), p) == Inbox(s, p)
  {
  }

  /** The inbox is a queue: a step adds at its end and takes from its front. */
  lemma StepInbox(s: Team, e: Event, p: Path)
    requires Sound(s) && DeferredEmpty(s)
    ensures Inbox(s, p) + Arrives(s, e, p) == Leaves(s, e, p) + Inbox(Step(s, e), p)
  {
    if e.HandlerDelivers? {
      DeliversInbox(s, e.id, p);
    } else if e.FollowUp? {
      FollowUpInbox(s, e.sender, e.target, e.signalAborted, p);
    } else if e.HandlerFollowsUp? {
      FollowsUpInbox(s, e.id, p);
    } else {
      OtherInbox(s, e, p);
    }
  }

  /** A record is new when an agent gets another one. */
  ghost predicate Renumbers(s: Team, t: Team) {
    && (forall p :: p in t.agents ==> t.agents[p].record == s.rt.nextId || (p in s.agents && t.agents[p].record == s.agents[p].record))
    && t.deferred <= s.deferred
  }

  lemma ReactivateRenumbers(s: Team, p: Path)
    requires p in s.agents
    ensures Renumbers(s, Reactivate(s, p))
  {
  }

  lemma DeliversRenumbers(s: Team, id: nat)
    ensures Renumbers(s, DoHandlerDelivers(s, id))
  {
    if id in s.rt.inflight && id in s.rt.records && s.rt.records[id].path != [] {
      var on, q := HandlerMoved(s, id), Parent(s.rt.records[id].path);
      if q in s.agents {
        ReactivateRenumbers(on, q);
      }
    }
  }

  lemma FollowsUpRenumbers(s: Team, id: nat)
    ensures Renumbers(s, DoHandlerFollowsUp(s, id))
  {
  }

  lemma FollowUpRenumbers(s: Team, sender: Path, target: Path, signalAborted: bool)
    ensures Renumbers(s, DoFollowUp(s, sender, target, signalAborted))
  {
  }

  lemma MailRenumbers(s: Team, e: Event)
    requires Mails(e)
    ensures Renumbers(s, Step(s, e))
  {
    if e.HandlerDelivers? {
      DeliversRenumbers(s, e.id);
    } else if e.FollowUp? {
      FollowUpRenumbers(s, e.sender, e.target, e.signalAborted);
    } else {
      FollowsUpRenumbers(s, e.id);
    }
  }

  lemma OtherRenumbers(s: Team, e: Event)
    requires !Mails(e) && !e.Spawn?
    ensures Renumbers(s, Step(s, e))
  {
  }

  lemma StepDeferredEmpty(s: Team, e: Event)
    requires Sound(s) && DeferredEmpty(s)
    ensures DeferredEmpty(Step(s, e))
  {
    if e.Spawn? {
      SpawnDeferredEmpty(s, e.sender, e.name, e.deferStart);
    } else {
      var t := Step(s, e);
      if Mails(e) { MailRenumbers(s, e); } else { OtherRenumbers(s, e); }
      forall p | p in t.agents && t.agents[p].record in t.deferred ensures t.agents[p].pending == [] {
        assert t.agents[p].record in s.deferred && t.agents[p].record in s.rt.records;
        StepInbox(s, e, p);
        assert !IsQueued(s, p);
        assert Arrives(s, e, p) == [];
      }
    }
  }

  lemma SpawnDeferredEmpty(s: Team, sender: Path, name: string, deferStart: bool)
    requires Sound(s) && DeferredEmpty(s)
    ensures DeferredEmpty(DoSpawn(s, sender, name, deferStart))
  {
  }

  // ---------------------------------------------------------------- every run

  lemma {:induction false} RunInbox(s: Team, es: seq<Event>, p: Path)
    requires RuntimeOk(s.rt) && Sound(s) && DeferredEmpty(s)
    ensures Inbox(s, p) + ArrivedIn(s, es, p) == LeftIn(s, es, p) + Inbox(Run(s, es), p)
    ensures DeferredEmpty(Run(s, es))
    decreases |es|
  {
    if es != [] {
      var t := Step(s, es[0]);
      StepKeepsRuntime(s, es[0]);
      StepSound(s, es[0]);
      StepDeferredEmpty(s, es[0]);
      StepInbox(s, es[0], p);
      RunInbox(t, es[1..], p);
      Chain(Inbox(s, p), Arrives(s, es[0], p), Leaves(s, es[0], p), Inbox(t, p), ArrivedIn(t, es[1..], p), LeftIn(t, es[1..], p), Inbox(Run(s, es), p));
    }
  }

  lemma Chain(a: seq<Path>, b: seq<Path>, c: seq<Path>, d: seq<Path>, b': seq<Path>, c': seq<Path>, z: seq<Path>)
    requires a + b == c + d && d + b' == c' + z
    ensures a + (b + b') == (c + c') + z
  {
    assert a + (b + b') == (a + b) + b';
    assert (c + d) + b' == c + (d + b');
    assert c + (c' + z) == (c + c') + z;
  }

  lemma Reached(es: seq<Event>)
    ensures var s := Run(Init(), es); RuntimeOk(s.rt) && Sound(s) && DeferredEmpty(s)
  {
    assert Good(Init()) && DeferredEmpty(Init());
    SoundAlways(Init(), es);
    RunInbox(Init(), es, []);
  }

  /** The inbox is served in order and nothing in it is lost or repeated: over every
      run, what has arrived is what has left, followed by what is still there. */
  lemma InboxInOrder(es: seq<Event>, p: Path)
    ensures ArrivedIn(Init(), es, p) == LeftIn(Init(), es, p) + Inbox(Run(Init(), es), p)
  {
    assert Good(Init()) && DeferredEmpty(Init());
    RunInbox(Init(), es, p);
    assert Inbox(Init(), p) + ArrivedIn(Init(), es, p) == ArrivedIn(Init(), es, p);
  }

  /** A result is not lost: in every reachable state, when the handler of a finished
      run delivers a result that is not to be kept quiet, a parent that can receive
      starts a new run at that step, and a queued parent finds it in its inbox. */
  lemma ResultWakesOrWaits(es: seq<Event>, id: nat, c: Path)
    requires HasResult(Run(Init(), es), id, c) && Parent(c) in Run(Init(), es).agents
    ensures var s := Run(Init(), es);
      var t, p := Step(s, HandlerDelivers(id)), Parent(c);
      && (CanReceive(StatusOf(s, p)) ==> Resumes(s, t, p))
      && (IsQueued(s, p) ==> Inbox(t, p) == Inbox(s, p) + [c])
  {
    var s := Run(Init(), es);
    SchedulerReached(es);
    ResultArrives(s, id, c, Parent(c));
  }

  lemma ResultArrives(s: Team, id: nat, c: Path, p: Path)
    requires SchedulerOk(s.rt) && HasResult(s, id, c) && Parent(c) == p && p in s.agents
    ensures CanReceive(StatusOf(s, p)) ==> Resumes(s, DoHandlerDelivers(s, id), p)
    ensures IsQueued(s, p) ==> Inbox(DoHandlerDelivers(s, id), p) == Inbox(s, p) + [c]
  {
    var on := HandlerMoved(s, id);
    QuietIff(s, id, c);
    assert StatusOf(on, p) == StatusOf(s, p) && SchedulerOk(on.rt);
    assert DoHandlerDelivers(s, id) == DeliverFinalAnswer(on, c);
    DeliverInbox(on, c, p);
  }

  lemma SchedulerReached(es: seq<Event>)
    ensures SchedulerOk(Run(Init(), es).rt)
  {
    Reached(es);
  }

  /** A result that is to be kept quiet changes nobody's run and nobody's inbox. */
  lemma QuietResultWakesNobody(es: seq<Event>, id: nat, c: Path, p: Path)
    requires var s := Run(Init(), es);
      id in s.rt.inflight && id in s.rt.records && s.rt.records[id].path == c && c != [] && c in s.agents && !HasResult(s, id, c)
    ensures var s := Run(Init(), es); Step(s, HandlerDelivers(id)).agents == s.agents
  {
    QuietIff(Run(Init(), es), id, c);
  }

  /** What leaves the inbox after a completed run starts a run of the agent, unless it can no longer receive. */
  lemma NextEntryResumes(es: seq<Event>, id: nat, p: Path)
    requires var s := Run(Init(), es);
      && id in s.delivered && id in s.rt.records && s.rt.records[id].path == p && s.rt.records[id].terminal == Some(Completed)
      && Inbox(s, p) != []
    ensures var s := Run(Init(), es);
      var t := Step(s, HandlerFollowsUp(id));
      && Inbox(t, p) == Inbox(s, p)[1..]
      && (CanReceive(StatusOf(s, p)) ==> Resumes(s, t, p))
  {
    SchedulerReached(es);
    TakenInbox(Run(Init(), es), id, p);
  }

  /** A follow-up: a queued target finds it in its inbox, one that can receive starts a new run unless the signal has fired. */
  lemma FollowUpWakesOrWaits(es: seq<Event>, sender: Path, target: Path, signalAborted: bool)
    requires target in Run(Init(), es).agents
    ensures var s := Run(Init(), es);
      var t := Step(s, FollowUp(sender, target, signalAborted));
      && (IsQueued(s, target) ==> Inbox(t, target) == Inbox(s, target) + [sender])
      && (CanReceive(StatusOf(s, target)) && !signalAborted ==> Resumes(s, t, target))
  {
    var s := Run(Init(), es);
    SchedulerReached(es);
    FollowUpInbox(s, sender, target, signalAborted, target);
    ReactivateResumes(s, target);
  }
}
