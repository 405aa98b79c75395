/** The kernel read off from the events: which calls are accepted and on which
    child, which event ends a cell and with what verdict, and how long a child lives.
 */
module EvalFates {
  import opened EvalKernel

  /** What can still end a cell: its own reply, its timer and signal if it has them,
      its child, and the host calls it has made. */
  datatype Watch = Watch(cell: nat, child: nat, timed: bool, signal: bool, calls: set<nat>, tools: nat)

  /** The verdict with which an event ends the cell, if it does. */
  function Ending(w: Watch, e: Event): Option<Verdict> {
    match e
    case Reply(cell, ok) => if cell == w.cell then Some(if ok then Resolved else Rejected(EvalFailed)) else None
    case Timeout(cell) => if cell == w.cell && w.timed then Some(Rejected(TimedOut)) else None
    case Abort(cell) => if cell == w.cell && w.signal then Some(Rejected(Aborted)) else None
    case Exit(child) => if child == w.child then Some(Rejected(Exited)) else None
    case ChildError(child) => if child == w.child then Some(Rejected(ChildFailed)) else None
    case WriteError(_) => Some(Rejected(WriteFailed))
    case BadLine => Some(Rejected(BadReply))
    case Close => Some(Rejected(Shutdown))
    case HostDone(call, _, encodes) => if call in w.calls && !encodes then Some(Rejected(Unencodable)) else None
    case _ => None
  }

  /** The host calls and tool calls of the cell after an event that does not end it. */
  function Watched(w: Watch, e: Event): Watch {
    match e
    case HostCall(call, cell, tool, bridge) =>
      if cell == w.cell && bridge then w.(calls := w.calls + {call}, tools := w.tools + if tool then 1 else 0) else w
    case HostDone(call, _, _) => w.(calls := w.calls - {call})
    case _ => w
  }

  /** The verdict of the first event that ends the cell. */
  function Fate(w: Watch, es: seq<Event>): Option<Verdict>
    decreases |es|
  {
    if es == [] then None else if Ending(w, es[0]).Some? then Ending(w, es[0]) else Fate(Watched(w, es[0]), es[1..])
  }

  function WatchOf(k: Kernel): Watch
    requires k.pending.Some?
  {
    var c := k.pending.value;
    Watch(c.id, c.child, c.id in k.timers, c.id in k.listeners, (set call | call in k.calls && k.calls[call] == c.id), c.toolCalls)
  }

  // ---------------------------------------------------------------- one step

  lemma TakenResets(k: Kernel, why: Reason)
    requires k.pending.Some?
    ensures Reset(k, Some(why)).settled == k.settled + [Settlement(k.pending.value.id, Rejected(why))] && Reset(k, Some(why)).pending == None
  {
  }

  /** An event ends the pending cell with that verdict, or leaves it pending and watched. */
  lemma StepFate(k: Kernel, e: Event)
    requires Inv(k) && k.pending.Some? && !e.Execute?
    ensures var w, t := WatchOf(k), Step(k, e);
      if Ending(w, e).Some? then t.pending == None && t.settled == k.settled + [Settlement(w.cell, Ending(w, e).value)]
      else t.pending.Some? && WatchOf(t) == Watched(w, e) && t.settled == k.settled
  {
    match e
    case HostCall(call, cell, tool, bridge) => HostCallFate(k, call, cell, tool, bridge);
    case HostDone(call, ok, encodes) => HostDoneFate(k, call, ok, encodes);
    case _ =>
  }

  lemma HostCallFate(k: Kernel, call: nat, cell: nat, tool: bool, bridge: bool)
    requires Inv(k) && k.pending.Some?
    ensures var t := DoHostCall(k, call, cell, tool, bridge);
      t.pending.Some? && WatchOf(t) == Watched(WatchOf(k), HostCall(call, cell, tool, bridge)) && t.settled == k.settled
  {
  }

  lemma HostDoneFate(k: Kernel, call: nat, ok: bool, encodes: bool)
    requires Inv(k) && k.pending.Some?
    ensures var w, t, e := WatchOf(k), DoHostDone(k, call, ok, encodes), HostDone(call, ok, encodes);
      if Ending(w, e).Some? then t.pending == None && t.settled == k.settled + [Settlement(w.cell, Ending(w, e).value)]
      else t.pending.Some? && WatchOf(t) == Watched(w, e) && t.settled == k.settled
  {
  }

  /** While a cell is pending another call is refused and changes nothing. */
  lemma BusyRefuses(k: Kernel, ask: Ask)
    requires k.pending.Some?
    ensures Step(k, Execute(ask)) == k
  {
  }

  // ---------------------------------------------------------------- the fate of a cell

  lemma {:induction false} SettledStays(k: Kernel, es: seq<Event>)
    requires Inv(k)
    ensures k.settled <= Run(k, es).settled
    decreases |es|
  {
    if es != [] {
      StepKeeps(k, es[0]);
      OnlyOwnReplyResolves(k, es[0]);
      SettledStays(Step(k, es[0]), es[1..]);
    }
  }

  lemma {:induction false} RunFate(k: Kernel, es: seq<Event>)
    requires Inv(k) && k.pending.Some?
    ensures var w, t := WatchOf(k), Run(k, es);
      match Fate(w, es)
      case None => IsPending(t, w.cell)
      case Some(v) => Settlement(w.cell, v) in t.settled
    decreases |es|
  {
    if es != [] {
      var t, w := Step(k, es[0]), WatchOf(k);
      StepKeeps(k, es[0]);
      if es[0].Execute? {
        BusyRefuses(k, es[0].ask);
        RunFate(k, es[1..]);
      } else {
        StepFate(k, es[0]);
        if Ending(w, es[0]).Some? {
          SettledStays(t, es[1..]);
          assert Settlement(w.cell, Ending(w, es[0]).value) in t.settled;
        } else {
          RunFate(t, es[1..]);
        }
      }
    }
  }

  /** The fate of a cell: in every run, a cell that is pending stays pending until
      the first event that ends it, and is settled with the verdict of that event:
      its own reply, its timer, its signal, its child's exit or error, a failed
      write, a bad line, the close, or an answer to its host call that cannot be
      encoded. */
  lemma CellFate(es: seq<Event>, more: seq<Event>)
    requires Run(Boot(), es).pending.Some?
    ensures var w, t := WatchOf(Run(Boot(), es)), Run(Run(Boot(), es), more);
      match Fate(w, more)
      case None => IsPending(t, w.cell) && !IsSettled(t.settled, w.cell)
      case Some(v) => !IsPending(t, w.cell) && forall x :: x in t.settled && x.cell == w.cell ==> x.verdict == v
  {
    var k := Run(Boot(), es);
    var w, t := WatchOf(k), Run(k, more);
    RunKeeps(Boot(), es);
    RunFate(k, more);
    RunKeeps(k, more);
    if Fate(w, more).Some? {
      OneVerdict(t, w.cell, Fate(w, more).value);
    }
  }

  lemma OneVerdict(t: Kernel, cell: nat, v: Verdict)
    requires Inv(t) && Settlement(cell, v) in t.settled
    ensures !IsPending(t, cell) && forall x :: x in t.settled && x.cell == cell ==> x.verdict == v
  {
    var i :| 0 <= i < |t.settled| && t.settled[i] == Settlement(cell, v);
    assert IsSettled(t.settled, cell);
    forall x | x in t.settled && x.cell == cell ensures x.verdict == v {
      var j :| 0 <= j < |t.settled| && t.settled[j] == x;
      assert i == j;
    }
  }

  // ---------------------------------------------------------------- accepting a call

  /** The child is the one the last call ran on: it is alive, no reset is asked for,
      and the directory is the same. */
  predicate Reuses(k: Kernel, ask: Ask) {
    k.child.Some? && !ask.reset && k.cwd == Some(ask.cwd)
  }

  predicate Accepts(k: Kernel, ask: Ask) {
    k.pending.None? && (Reuses(k, ask) || ask.starts) && !ask.aborted
  }

  /** A call is accepted if and only if no cell is pending, the old child is to be
      used again or a new one starts, and the signal has not fired.  Its cell runs
      on the old child, or on one that never ran anything before; it is sent there
      once, and watched for its timer and signal if it has them; a cell that cannot
      be encoded is rejected at once.  A call refused because a cell is pending
      changes nothing; any other refused call leaves no child. */
  lemma AcceptedIff(es: seq<Event>, ask: Ask)
    ensures var k := Run(Boot(), es);
      var t := Step(k, Execute(ask));
      var child := if Reuses(k, ask) then k.child.value else k.children;
      && (t.cells == k.cells + 1 <==> Accepts(k, ask)) && (t.cells == k.cells <==> !Accepts(k, ask))
      && (Accepts(k, ask) && ask.encodes ==>
            && t.pending.Some? && WatchOf(t) == Watch(k.cells, child, ask.timed, ask.signal, {}, 0)
            && t.sent == k.sent + [EvalFrame(child, k.cells)] && t.settled == k.settled && t.cwd == Some(ask.cwd))
      && (Accepts(k, ask) && !ask.encodes ==> t.settled == k.settled + [Settlement(k.cells, Rejected(Unencodable))] && t.pending.None? && t.child.None?)
      && (!Accepts(k, ask) ==> t.settled == k.settled && t.sent == k.sent && if k.pending.Some? then t == k else t.child == None)
  {
    var k := Run(Boot(), es);
    CallsAreOld(es);
    RunKeeps(Boot(), es);
    if Accepts(k, ask) {
      AcceptOne(k, ask);
    } else {
      RefuseOne(k, ask);
    }
  }

  /** Host calls belong to cells that were accepted. */
  predicate CallsOld(k: Kernel) {
    forall call :: call in k.calls ==> k.calls[call] < k.cells
  }

  lemma StepCallsOld(k: Kernel, e: Event)
    requires Inv(k) && CallsOld(k)
    ensures CallsOld(Step(k, e))
  {
  }

  lemma {:induction false} RunCallsOld(k: Kernel, es: seq<Event>)
    requires Inv(k) && CallsOld(k)
    ensures CallsOld(Run(k, es))
    decreases |es|
  {
    if es != [] {
      StepKeeps(k, es[0]);
      StepCallsOld(k, es[0]);
      RunCallsOld(Step(k, es[0]), es[1..]);
    }
  }

  lemma CallsAreOld(es: seq<Event>)
    ensures CallsOld(Run(Boot(), es))
  {
    RunCallsOld(Boot(), es);
  }

  lemma AcceptOne(k: Kernel, ask: Ask)
    requires Inv(k) && CallsOld(k) && Accepts(k, ask)
    ensures var t := Step(k, Execute(ask));
      var child := if Reuses(k, ask) then k.child.value else k.children;
      && t.cells == k.cells + 1
      && (ask.encodes ==>
            && t.pending.Some? && WatchOf(t) == Watch(k.cells, child, ask.timed, ask.signal, {}, 0)
            && t.sent == k.sent + [EvalFrame(child, k.cells)] && t.settled == k.settled && t.cwd == Some(ask.cwd))
      && (!ask.encodes ==> t.settled == k.settled + [Settlement(k.cells, Rejected(Unencodable))] && t.pending.None? && t.child.None?)
  {
  }

  lemma RefuseOne(k: Kernel, ask: Ask)
    requires Inv(k) && !Accepts(k, ask)
    ensures var t := Step(k, Execute(ask));
      && t.cells == k.cells && t.settled == k.settled && t.sent == k.sent
      && (if k.pending.Some? then t == k else t.child == None)
  {
  }

  // ---------------------------------------------------------------- how long a child lives

  /** The event is the end of this child, whether or not a cell is pending. */
  predicate Kills(k: Kernel, e: Event, child: nat) {
    match e
    case Exit(x) => x == child
    case ChildError(x) => x == child
    case WriteError(_) => true
    case BadLine => true
    case Close => true
    case _ => k.pending.Some? && Ending(WatchOf(k), e).Some? && !e.Reply?
  }

  /** A child stays until an event ends it: its exit or error, a failed write, a bad
      line, the close, or a timeout, an abort or an answer that cannot be encoded of
      the cell that runs on it - and in particular across replies, so that state
      carries over from cell to cell. */
  lemma ChildStaysIff(es: seq<Event>, e: Event)
    requires Run(Boot(), es).child.Some? && !e.Execute?
    ensures var k := Run(Boot(), es); Step(k, e).child == if Kills(k, e, k.child.value) then None else k.child
  {
    RunKeeps(Boot(), es);
    ChildStep(Run(Boot(), es), e);
  }

  lemma ChildStep(k: Kernel, e: Event)
    requires Inv(k) && k.child.Some? && !e.Execute?
    ensures Step(k, e).child == if Kills(k, e, k.child.value) then None else k.child
  {
  }

  /** A call of another cell, or without a bridge, is answered with an error; others are taken. */
  lemma HostCallIff(es: seq<Event>, call: nat, cell: nat, tool: bool, bridge: bool)
    requires Run(Boot(), es).child.Some?
    ensures var k := Run(Boot(), es);
      var t := Step(k, HostCall(call, cell, tool, bridge));
      if IsPending(k, cell) && bridge then t.sent == k.sent && call in t.calls && t.calls[call] == cell
      else t.sent == k.sent + [HostResult(k.child.value, call, false)] && t.calls == k.calls
  {
  }
}
