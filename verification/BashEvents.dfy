/** Bash tasks read off from the events: what is true of a task is what some event
    made true of it, and every waiter is released by one event with its answer.
 */
module BashEvents {
  import opened BashTasks

  // ---------------------------------------------------------------- what is marked on a task

  datatype Mark = Registered | Signalled | HasExited | Flushed | Overdue | Killed | InBackground | AutoSpent | TimeoutSpent

  predicate Marked(x: Task, m: Mark) {
    match m
    case Registered => x.registered
    case Signalled => x.signalAborted
    case HasExited => x.completed
    case Flushed => x.logEnded
    case Overdue => x.timedOut
    case Killed => x.explicitlyKilled
    case InBackground => x.backgrounded
    case AutoSpent => !x.autoArmed
    case TimeoutSpent => !x.timeoutArmed
  }

  /** The task is on the list and its process has not exited. */
  predicate Listed(x: Task) {
    x.registered && !x.completed
  }

  /** The mark a launch puts on its task. */
  predicate LaunchMarks(e: Event, m: Mark) {
    e.Launch? && match m
      case InBackground => !e.foreground
      case AutoSpent => !(e.foreground && e.auto)
      case TimeoutSpent => !e.timed
      case _ => false
  }

  /** The event puts the mark on a task that was launched before. */
  predicate Marks(x: Task, t: nat, e: Event, m: Mark) {
    match m
    case Registered => e == Register(t)
    case Signalled => e == SignalAbort(t)
    case HasExited => e.Close? && e.task == t
    case Flushed => e == LogEnd(t) && x.completed
    case Overdue => e == Timeout(t) && x.timeoutArmed
    case Killed => (e == Kill(t) || e == Shutdown) && Listed(x)
    case InBackground => (e == Promote(t) || (e == AutoBackground(t) && x.autoArmed)) && Charge(x)
    case AutoSpent => e == AutoBackground(t) || (e.Close? && e.task == t) || (e == Promote(t) && Charge(x)) || (e == Shutdown && Listed(x))
    case TimeoutSpent => e == Timeout(t) || (e.Close? && e.task == t)
  }

  /** Event k of the run puts the mark on task t. */
  predicate MarksAt(es: seq<Event>, k: nat, t: nat, m: Mark)
    requires k < |es|
  {
    var d := Run(Boot(), es[..k]);
    if t < |d.tasks| then Marks(d.tasks[t], t, es[k], m) else t == |d.tasks| && LaunchMarks(es[k], m)
  }

  lemma RegisterMarks(d: Desk, t: nat, m: Mark)
    requires t < |d.tasks| && TaskOk(d.tasks[t])
    ensures |DoRegister(d, t).tasks| == |d.tasks|
    ensures Marked(DoRegister(d, t).tasks[t], m) <==> Marked(d.tasks[t], m) || Marks(d.tasks[t], t, Register(t), m)
  {
  }

  lemma LogEndMarks(d: Desk, t: nat, m: Mark)
    requires t < |d.tasks| && TaskOk(d.tasks[t])
    ensures |DoLogEnd(d, t).tasks| == |d.tasks|
    ensures Marked(DoLogEnd(d, t).tasks[t], m) <==> Marked(d.tasks[t], m) || Marks(d.tasks[t], t, LogEnd(t), m)
  {
  }

  lemma PromoteMarks(d: Desk, t: nat, m: Mark)
    requires t < |d.tasks| && TaskOk(d.tasks[t])
    ensures |DoPromote(d, t).tasks| == |d.tasks|
    ensures Marked(DoPromote(d, t).tasks[t], m) <==> Marked(d.tasks[t], m) || Marks(d.tasks[t], t, Promote(t), m)
  {
  }

  lemma AutoMarks(d: Desk, t: nat, m: Mark)
    requires t < |d.tasks| && TaskOk(d.tasks[t])
    ensures |DoAutoBackground(d, t).tasks| == |d.tasks|
    ensures Marked(DoAutoBackground(d, t).tasks[t], m) <==> Marked(d.tasks[t], m) || Marks(d.tasks[t], t, AutoBackground(t), m)
  {
    var x := d.tasks[t];
    if x.autoArmed {
      PromoteMarks(Put(d, t, x.(autoArmed := false)), t, m);
    }
  }

  lemma OwnMarks(d: Desk, e: Event, m: Mark)
    requires OfTask(e) && e.task < |d.tasks| && TaskOk(d.tasks[e.task])
    ensures |TaskStep(d, e).tasks| == |d.tasks|
    ensures Marked(TaskStep(d, e).tasks[e.task], m) <==> Marked(d.tasks[e.task], m) || Marks(d.tasks[e.task], e.task, e, m)
  {
    if e.Register? {
      RegisterMarks(d, e.task, m);
    } else if e.LogEnd? {
      LogEndMarks(d, e.task, m);
    } else if e.Promote? {
      PromoteMarks(d, e.task, m);
    } else if e.AutoBackground? {
      AutoMarks(d, e.task, m);
    } else {
      QuietMarks(d, e, m);
    }
  }

  lemma QuietMarks(d: Desk, e: Event, m: Mark)
    requires OfTask(e) && e.task < |d.tasks| && TaskOk(d.tasks[e.task]) && !e.Register? && !e.LogEnd? && !e.Promote? && !e.AutoBackground?
    ensures |TaskStep(d, e).tasks| == |d.tasks|
    ensures Marked(TaskStep(d, e).tasks[e.task], m) <==> Marked(d.tasks[e.task], m) || Marks(d.tasks[e.task], e.task, e, m)
  {
    if e.Wait? || e.WaitTimeout? || e.WaitAbort? {
      WaitMarks(d, e, m);
    } else {
      PlainMarks(d, e, m);
    }
  }

  lemma WaitMarks(d: Desk, e: Event, m: Mark)
    requires (e.Wait? || e.WaitTimeout? || e.WaitAbort?) && e.task < |d.tasks|
    ensures |TaskStep(d, e).tasks| == |d.tasks|
    ensures Marked(TaskStep(d, e).tasks[e.task], m) <==> Marked(d.tasks[e.task], m)
    ensures !Marks(d.tasks[e.task], e.task, e, m)
  {
  }

  lemma PlainMarks(d: Desk, e: Event, m: Mark)
    requires (e.SignalAbort? || e.Close? || e.Timeout? || e.Kill?) && e.task < |d.tasks| && TaskOk(d.tasks[e.task])
    ensures |TaskStep(d, e).tasks| == |d.tasks|
    ensures Marked(TaskStep(d, e).tasks[e.task], m) <==> Marked(d.tasks[e.task], m) || Marks(d.tasks[e.task], e.task, e, m)
  {
  }

  lemma OthersMarks(d: Desk, e: Event, t: nat, m: Mark)
    requires OfTask(e) && e.task < |d.tasks| && t < |d.tasks| && t != e.task
    ensures |TaskStep(d, e).tasks| == |d.tasks| && TaskStep(d, e).tasks[t] == d.tasks[t]
    ensures !Marks(d.tasks[t], t, e, m)
  {
    TaskStepMoves(d, e);
  }

  /** One step: a task has a mark exactly when it had it, or the event puts it there. */
  lemma StepMarks(d: Desk, e: Event, t: nat, m: Mark)
    requires Inv(d) && t < |d.tasks|
    ensures t < |Step(d, e).tasks| && (Marked(Step(d, e).tasks[t], m) <==> Marked(d.tasks[t], m) || Marks(d.tasks[t], t, e, m))
  {
    assert d.tasks[t] in d.tasks;
    if OfTask(e) {
      if e.task < |d.tasks| {
        if t == e.task { OwnMarks(d, e, m); } else { OthersMarks(d, e, t, m); }
      }
    } else {
      SharedMarks(d, e, t, m);
    }
  }

  lemma SharedMarks(d: Desk, e: Event, t: nat, m: Mark)
    requires t < |d.tasks| && !OfTask(e)
    ensures t < |Step(d, e).tasks| && (Marked(Step(d, e).tasks[t], m) <==> Marked(d.tasks[t], m) || Marks(d.tasks[t], t, e, m))
  {
  }

  lemma NewTask(d: Desk, e: Event)
    ensures |Step(d, e).tasks| == |d.tasks| + (if e.Launch? then 1 else 0)
    ensures e.Launch? ==> Step(d, e).tasks == d.tasks + [Launched(e.foreground, e.timed, e.auto)]
  {
    if OfTask(e) && e.task < |d.tasks| {
      TaskStepMoves(d, e);
    }
  }

  lemma SameMarks(es: seq<Event>, e: Event, k: nat, t: nat, m: Mark)
    requires k < |es|
    ensures MarksAt(es + [e], k, t, m) <==> MarksAt(es, k, t, m)
  {
    assert (es + [e])[..k] == es[..k];
  }

  /** What is true of a task from the events: in every run a task is registered,
      signalled, exited, flushed, overdue, killed, in the background, or has spent
      one of its timers, if and only if some event of the run made it so. */
  lemma {:induction false} MarkedIff(es: seq<Event>, t: nat, m: Mark)
    requires t < |Run(Boot(), es).tasks|
    ensures Marked(Run(Boot(), es).tasks[t], m) <==> exists k :: 0 <= k < |es| && MarksAt(es, k, t, m)
    decreases |es|
  {
    if es != [] {
      var init, e := es[..|es| - 1], es[|es| - 1];
      assert es == init + [e] && es[..|init|] == init;
      RunSnoc(Boot(), init, e);
      Reached(init);
      var d := Run(Boot(), init);
      NewTask(d, e);
      forall k | 0 <= k < |init| ensures MarksAt(es, k, t, m) <==> MarksAt(init, k, t, m) {
        SameMarks(init, e, k, t, m);
      }
      if t < |d.tasks| {
        StepMarks(d, e, t, m);
        MarkedIff(init, t, m);
        assert MarksAt(es, |init|, t, m) <==> Marks(d.tasks[t], t, e, m);
      } else {
        forall k | 0 <= k < |init| ensures !MarksAt(init, k, t, m) {
          TasksGrow(init, k, t);
        }
        assert MarksAt(es, |init|, t, m) <==> LaunchMarks(e, m);
      }
    }
  }

  lemma TasksGrow(es: seq<Event>, k: nat, t: nat)
    requires k < |es| && t >= |Run(Boot(), es).tasks|
    ensures t > |Run(Boot(), es[..k]).tasks| || (t == |Run(Boot(), es[..k]).tasks| && !es[k].Launch?)
  {
    MoreTasks(es, k);
    MoreTasks(es, k + 1);
    assert es[..k + 1] == es[..k] + [es[k]];
    RunSnoc(Boot(), es[..k], es[k]);
    NewTask(Run(Boot(), es[..k]), es[k]);
  }

  lemma {:induction false} MoreTasks(es: seq<Event>, k: nat)
    requires k <= |es|
    ensures |Run(Boot(), es[..k]).tasks| <= |Run(Boot(), es).tasks|
    decreases |es|
  {
    if k == |es| {
      assert es[..k] == es;
    } else {
      var init, e := es[..|es| - 1], es[|es| - 1];
      assert es == init + [e] && init[..k] == es[..k];
      MoreTasks(init, k);
      RunSnoc(Boot(), init, e);
      NewTask(Run(Boot(), init), e);
    }
  }

  // ---------------------------------------------------------------- the agent

  /** The agent runs from its start to its settling. */
  function AgentRuns(es: seq<Event>): bool {
    if es == [] then false
    else match es[|es| - 1]
      case AgentStart => true
      case AgentSettled(_) => false
      case _ => AgentRuns(es[..|es| - 1])
  }

  lemma StepAgent(d: Desk, e: Event)
    ensures Step(d, e).agentRunning == if e.AgentStart? then true else if e.AgentSettled? then false else d.agentRunning
  {
    if OfTask(e) && e.task < |d.tasks| {
      TaskStepAgent(d, e);
    }
  }

  lemma TaskStepAgent(d: Desk, e: Event)
    requires OfTask(e) && e.task < |d.tasks|
    ensures TaskStep(d, e).agentRunning == d.agentRunning
  {
  }

  lemma {:induction false} AgentRunningIff(es: seq<Event>)
    ensures Run(Boot(), es).agentRunning == AgentRuns(es)
  {
    if es != [] {
      var init, e := es[..|es| - 1], es[|es| - 1];
      assert es == init + [e];
      AgentRunningIff(init);
      RunSnoc(Boot(), init, e);
      StepAgent(Run(Boot(), init), e);
    }
  }

  /** At a boundary and when the agent settles everything pending is handed over, in one batch. */
  lemma HandedOver(es: seq<Event>, e: Event)
    requires e.Boundary? || e.AgentSettled?
    ensures var d, t := Run(Boot(), es), Run(Boot(), es + [e]);
      && t.pending == []
      && t.deliveries == d.deliveries +
           if d.pending == [] then []
           else if e.Boundary? then [Appended(d.pending, e.goOn || e.completed)] else [Posted(d.pending, !e.aborted)]
  {
    RunSnoc(Boot(), es, e);
  }

  // ---------------------------------------------------------------- the exit code

  /** The exit code of a task is that of the first exit reported for it. */
  lemma {:induction false} FirstExitCounts(es: seq<Event>, t: nat, code: Option<int>)
    requires t < |Run(Boot(), es).tasks| && !Run(Boot(), es).tasks[t].completed
    ensures var d := Run(Boot(), es + [Close(t, code)]); t < |d.tasks| && d.tasks[t].completed && d.tasks[t].exitCode == code
  {
    RunSnoc(Boot(), es, Close(t, code));
  }

  lemma StepExit(d: Desk, e: Event, t: nat)
    requires t < |d.tasks| && d.tasks[t].completed
    ensures t < |Step(d, e).tasks| && Step(d, e).tasks[t].completed && Step(d, e).tasks[t].exitCode == d.tasks[t].exitCode
  {
    if OfTask(e) && e.task < |d.tasks| {
      TaskStepMoves(d, e);
      if e.task == t { OwnExit(d, e); }
    }
  }

  lemma OwnExit(d: Desk, e: Event)
    requires OfTask(e) && e.task < |d.tasks| && d.tasks[e.task].completed
    ensures var y := TaskStep(d, e).tasks; |y| == |d.tasks| && y[e.task].completed && y[e.task].exitCode == d.tasks[e.task].exitCode
  {
    if e.Register? || e.LogEnd? || e.Promote? || e.AutoBackground? {
      SettlingExit(d, e);
    } else {
      PlainExit(d, e);
    }
  }

  lemma SettlingExit(d: Desk, e: Event)
    requires (e.Register? || e.LogEnd? || e.Promote? || e.AutoBackground?) && e.task < |d.tasks| && d.tasks[e.task].completed
    ensures var y := TaskStep(d, e).tasks; |y| == |d.tasks| && y[e.task].completed && y[e.task].exitCode == d.tasks[e.task].exitCode
  {
  }

  lemma PlainExit(d: Desk, e: Event)
    requires OfTask(e) && !(e.Register? || e.LogEnd? || e.Promote? || e.AutoBackground?) && e.task < |d.tasks| && d.tasks[e.task].completed
    ensures var y := TaskStep(d, e).tasks; |y| == |d.tasks| && y[e.task].completed && y[e.task].exitCode == d.tasks[e.task].exitCode
  {
    if e.Wait? {
      WaitExit(d, e);
    } else if e.WaitTimeout? || e.WaitAbort? {
      LeftExit(d, e.task, e.waiter, e.WaitTimeout?);
    }
  }

  lemma WaitExit(d: Desk, e: Event)
    requires e.Wait? && e.task < |d.tasks| && d.tasks[e.task].completed
    ensures var y := TaskStep(d, e).tasks; |y| == |d.tasks| && y[e.task].completed && y[e.task].exitCode == d.tasks[e.task].exitCode
  {
  }

  lemma LeftExit(d: Desk, t: nat, w: nat, ok: bool)
    requires t < |d.tasks| && d.tasks[t].completed
    ensures var y := Left(d, t, w, ok).tasks; |y| == |d.tasks| && y[t].completed && y[t].exitCode == d.tasks[t].exitCode
  {
    var x := d.tasks[t];
    if w in x.waiters {
      LeftIs(d, t, w, ok, x, Without(x.waiters, w));
    }
  }

  lemma LeftIs(d: Desk, t: nat, w: nat, ok: bool, x: Task, ws: seq<nat>)
    requires t < |d.tasks| && x == d.tasks[t] && w in x.waiters && ws == Without(x.waiters, w)
    ensures Left(d, t, w, ok).tasks == d.tasks[t := x.(waiters := ws)]
  {
  }

  lemma {:induction false} ExitStays(d: Desk, es: seq<Event>, t: nat)
    requires t < |d.tasks| && d.tasks[t].completed
    ensures t < |Run(d, es).tasks| && Run(d, es).tasks[t].exitCode == d.tasks[t].exitCode
    decreases |es|
  {
    if es != [] {
      StepExit(d, es[0], t);
      ExitStays(Step(d, es[0]), es[1..], t);
    }
  }

  // ---------------------------------------------------------------- waiters

  /** The answer with which an event releases a waiter that asked before. */
  function Releases(d: Desk, e: Event, w: nat): Option<bool>
    requires w < |d.asked| && d.asked[w] < |d.tasks|
  {
    var x := d.tasks[d.asked[w]];
    if w !in x.waiters then None
    else if e == LogEnd(d.asked[w]) && x.completed then Some(true)
    else if e == WaitTimeout(d.asked[w], w) && w in d.timers then Some(true)
    else if e == WaitAbort(d.asked[w], w) && w in d.listeners then Some(false)
    else None
  }

  /** A waiter joins a running task with the timer and the signal it has; one that
      comes after the exit, or with its signal fired, is answered at once. */
  lemma WaitBegins(es: seq<Event>, t: nat, aborted: bool, signal: bool, timed: bool)
    requires t < |Run(Boot(), es).tasks| && Run(Boot(), es).tasks[t].registered
    ensures var d := Run(Boot(), es);
      var s, w := Step(d, Wait(t, aborted, signal, timed)), |d.asked|;
      && s.asked == d.asked + [t]
      && if d.tasks[t].completed then Note(w, true) in s.freed
         else if aborted then Note(w, false) in s.freed
         else t < |s.tasks| && w in s.tasks[t].waiters && (w in s.timers <==> timed) && (w in s.listeners <==> signal)
  {
    var d := Run(Boot(), es);
    var w := |d.asked|;
    Reached(es);
    assert w !in d.timers && w !in d.listeners;
    assert Note(w, d.tasks[t].completed) in d.freed + [Note(w, d.tasks[t].completed)];
  }

  predicate Waiting(d: Desk, w: nat) {
    w < |d.asked| && d.asked[w] < |d.tasks| && w in d.tasks[d.asked[w]].waiters
  }

  /** The waiter goes on waiting, with its timer and its signal. */
  predicate WaitsOn(d: Desk, s: Desk, w: nat) {
    && Waiting(d, w) && Waiting(s, w) && s.asked[w] == d.asked[w]
    && (w in s.timers <==> w in d.timers) && (w in s.listeners <==> w in d.listeners)
  }

  predicate Served(d: Desk, e: Event, s: Desk, w: nat)
    requires Waiting(d, w)
  {
    match Releases(d, e, w)
    case Some(ok) => Note(w, ok) in s.freed
    case None => WaitsOn(d, s, w)
  }

  lemma LogEndReleases(d: Desk, t: nat, w: nat)
    requires Inv(d) && t < |d.tasks| && Waiting(d, w)
    ensures Served(d, LogEnd(t), DoLogEnd(d, t), w)
  {
    var x := d.tasks[t];
    assert x in d.tasks && TaskOk(x) && WaitFor(x.waiters, t, d.asked, d.freed);
    if x.completed && !x.logEnded && w in x.waiters {
      var i :| 0 <= i < |x.waiters| && x.waiters[i] == w;
      assert Notes(x.waiters)[i] == Note(w, true);
    }
  }

  lemma LeftReleases(d: Desk, e: Event, w: nat)
    requires Inv(d) && (e.WaitTimeout? || e.WaitAbort?) && e.task < |d.tasks| && Waiting(d, w)
    ensures Served(d, e, TaskStep(d, e), w)
  {
    var x := d.tasks[e.task];
    assert WaitFor(x.waiters, e.task, d.asked, d.freed);
    WithoutDrops(x.waiters, e.waiter);
  }

  lemma WaitReleases(d: Desk, e: Event, w: nat)
    requires Inv(d) && e.Wait? && e.task < |d.tasks| && Waiting(d, w)
    ensures Served(d, e, TaskStep(d, e), w)
  {
  }

  lemma RegisterReleases(d: Desk, t: nat, w: nat)
    requires t < |d.tasks| && Waiting(d, w)
    ensures Served(d, Register(t), DoRegister(d, t), w)
  {
  }

  lemma PromoteReleases(d: Desk, t: nat, w: nat)
    requires t < |d.tasks| && Waiting(d, w)
    ensures WaitsOn(d, DoPromote(d, t), w)
  {
  }

  lemma AutoReleases(d: Desk, t: nat, w: nat)
    requires t < |d.tasks| && Waiting(d, w)
    ensures Served(d, AutoBackground(t), DoAutoBackground(d, t), w)
  {
    var x := d.tasks[t];
    if x.autoArmed {
      var mid := Put(d, t, x.(autoArmed := false));
      assert WaitsOn(d, mid, w);
      PromoteReleases(mid, t, w);
    }
  }

  lemma PlainReleases(d: Desk, e: Event, w: nat)
    requires (e.SignalAbort? || e.Close? || e.Timeout? || e.Kill?) && e.task < |d.tasks| && Waiting(d, w)
    ensures Served(d, e, TaskStep(d, e), w)
  {
  }

  lemma SharedReleases(d: Desk, e: Event, w: nat)
    requires !OfTask(e) && Waiting(d, w)
    ensures Served(d, e, Step(d, e), w)
  {
  }

  lemma StepReleases(d: Desk, e: Event, w: nat)
    requires Inv(d) && Waiting(d, w)
    ensures Served(d, e, Step(d, e), w)
  {
    if !OfTask(e) {
      SharedReleases(d, e, w);
    } else if e.task < |d.tasks| {
      if e.LogEnd? {
        LogEndReleases(d, e.task, w);
      } else if e.WaitTimeout? || e.WaitAbort? {
        LeftReleases(d, e, w);
      } else if e.Wait? {
        WaitReleases(d, e, w);
      } else if e.SignalAbort? || e.Close? || e.Timeout? || e.Kill? {
        PlainReleases(d, e, w);
      } else if e.Register? {
        RegisterReleases(d, e.task, w);
      } else if e.Promote? {
        PromoteReleases(d, e.task, w);
      } else {
        AutoReleases(d, e.task, w);
      }
    }
  }

  /** The answer of the first event that releases the waiter. */
  function Answer(d: Desk, es: seq<Event>, w: nat): Option<bool>
    decreases |es|
  {
    if es == [] || !Waiting(d, w) then None
    else if Releases(d, es[0], w).Some? then Releases(d, es[0], w)
    else Answer(Step(d, es[0]), es[1..], w)
  }

  lemma FreedGrows(d: Desk, e: Event)
    ensures d.freed <= Step(d, e).freed
  {
    if OfTask(e) && e.task < |d.tasks| {
      if e.LogEnd? { LogEndFreed(d, e.task); } else { OthersFreed(d, e); }
    }
  }

  lemma LogEndFreed(d: Desk, t: nat)
    requires t < |d.tasks|
    ensures d.freed <= DoLogEnd(d, t).freed
  {
  }

  lemma OthersFreed(d: Desk, e: Event)
    requires OfTask(e) && e.task < |d.tasks| && !e.LogEnd?
    ensures d.freed <= TaskStep(d, e).freed
  {
  }

  lemma {:induction false} RunFreed(d: Desk, es: seq<Event>)
    ensures d.freed <= Run(d, es).freed
    decreases |es|
  {
    if es != [] {
      FreedGrows(d, es[0]);
      RunFreed(Step(d, es[0]), es[1..]);
    }
  }

  lemma {:induction false} RunReleases(d: Desk, es: seq<Event>, w: nat)
    requires Inv(d) && Waiting(d, w)
    ensures match Answer(d, es, w)
      case Some(ok) => Note(w, ok) in Run(d, es).freed
      case None => Waiting(Run(d, es), w)
    decreases |es|
  {
    if es != [] {
      StepReleases(d, es[0], w);
      StepKeeps(d, es[0]);
      if Releases(d, es[0], w).Some? {
        RunFreed(Step(d, es[0]), es[1..]);
      } else {
        RunReleases(Step(d, es[0]), es[1..], w);
      }
    }
  }

  /** The fate of a waiter: it waits until the first of the flush of its task, its own
      timeout and its own signal, and gets the answer of that one. */
  lemma WaiterFate(es: seq<Event>, more: seq<Event>, w: nat)
    requires Waiting(Run(Boot(), es), w)
    ensures var d, s := Run(Boot(), es), Run(Run(Boot(), es), more);
      match Answer(d, more, w)
      case Some(ok) => Note(w, ok) in s.freed
      case None => Waiting(s, w) && !Has(s.freed, w)
  {
    var d := Run(Boot(), es);
    Reached(es);
    RunReleases(d, more, w);
    RunKeeps(d, more);
    var s := Run(d, more);
    if Answer(d, more, w).None? {
      assert WaitFor(s.tasks[s.asked[w]].waiters, s.asked[w], s.asked, s.freed);
    }
  }
}
