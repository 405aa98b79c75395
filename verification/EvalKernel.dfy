/** The persistent evaluation kernel: one cell at a time runs on a child process,
    and results, timeouts, aborts, exits, failed writes and resets race to settle
    it.  Host calls made by a cell may finish after it is settled.

    `settled`, `sent` and the two counters are an observer's notes: the order in
    which cells were settled, the frames written, and how many cells and children
    there have been.
 */
module EvalKernel {

  datatype Option<T> = None | Some(value: T)

  datatype Reason = TimedOut | Aborted | Exited | ChildFailed | WriteFailed | BadReply | EvalFailed | Unencodable | Shutdown
  datatype Verdict = Resolved | Rejected(why: Reason)
  datatype Settlement = Settlement(cell: nat, verdict: Verdict)

  datatype Cell = Cell(id: nat, child: nat, toolCalls: nat)

  datatype Frame = EvalFrame(child: nat, cell: nat) | HostResult(child: nat, call: nat, ok: bool)

  datatype Kernel = Kernel(
    child: Option<nat>, cwd: Option<string>, pending: Option<Cell>, timers: set<nat>, listeners: set<nat>, calls: map<nat, nat>,
    cells: nat, children: nat, settled: seq<Settlement>, sent: seq<Frame>)

  /** What execute is called with, and what happens on its way. */
  datatype Ask = Ask(cwd: string, reset: bool, starts: bool, aborted: bool, timed: bool, signal: bool, encodes: bool)

  datatype Event =
    | Execute(ask: Ask)
    | Reply(cell: nat, ok: bool)
    | HostCall(call: nat, cell: nat, tool: bool, bridge: bool)
    | HostDone(call: nat, ok: bool, encodes: bool)
    | BadLine
    | Timeout(cell: nat)
    | Abort(cell: nat)
    | Exit(child: nat)
    | ChildError(child: nat)
    | WriteError(child: nat)
    | Close

  /** The pending cell is taken away with its timer and its abort handler. */
  function Taken(k: Kernel): Kernel {
    if k.pending.None? then k
    else k.(pending := None, timers := k.timers - {k.pending.value.id}, listeners := k.listeners - {k.pending.value.id})
  }

  function Settled(k: Kernel, cell: Option<Cell>, verdict: Verdict): Kernel {
    if cell.None? then k else k.(settled := k.settled + [Settlement(cell.value.id, verdict)])
  }

  /** A reset drops child and cell; the cell is rejected only when there is an error. */
  function Reset(k: Kernel, why: Option<Reason>): Kernel {
    var t := Taken(k.(child := None, cwd := None));
    if why.None? then t else Settled(t, k.pending, Rejected(why.value))
  }

  function Started(k: Kernel, ask: Ask): Kernel {
    if k.child.Some? then k else k.(child := Some(k.children), cwd := Some(ask.cwd), children := k.children + 1)
  }

  function Sent(k: Kernel, f: Frame): Kernel {
    if k.child.None? then k else k.(sent := k.sent + [f])
  }

  function Accepted(k: Kernel, ask: Ask): Kernel
    requires k.child.Some?
  {
    var c := Cell(k.cells, k.child.value, 0);
    var t := k.(pending := Some(c), cells := k.cells + 1, timers := if ask.timed then k.timers + {c.id} else k.timers,
                listeners := if ask.signal then k.listeners + {c.id} else k.listeners);
    if ask.encodes then Sent(t, EvalFrame(c.child, c.id)) else Reset(t, Some(Unencodable))
  }

  /** The child for a call: the old one, or a new one after a reset, if it starts. */
  function Readied(k: Kernel, ask: Ask): Kernel {
    var r := if ask.reset || (k.cwd.Some? && k.cwd.value != ask.cwd) then Reset(k, None) else k;
    if r.child.None? && !ask.starts then r else Started(r, ask)
  }

  /** Refused while a cell is pending or no child starts. */
  function DoExecute(k: Kernel, ask: Ask): Kernel {
    if k.pending.Some? then k
    else
      var s := Readied(k, ask);
      if s.child.None? then s else if ask.aborted then Reset(s, None) else Accepted(s, ask)
  }

  predicate IsPending(k: Kernel, cell: nat) {
    k.pending.Some? && k.pending.value.id == cell
  }

  function DoReply(k: Kernel, cell: nat, ok: bool): Kernel {
    if !IsPending(k, cell) then k
    else Settled(Taken(k), k.pending, if ok then Resolved else Rejected(EvalFailed))
  }

  /** A call of another cell, or without a bridge to the host, is answered with an error. */
  function DoHostCall(k: Kernel, call: nat, cell: nat, tool: bool, bridge: bool): Kernel {
    if !IsPending(k, cell) || !bridge then (if k.child.Some? then Sent(k, HostResult(k.child.value, call, false)) else k)
    else k.(calls := k.calls[call := cell], pending := Some(k.pending.value.(toolCalls := k.pending.value.toolCalls + if tool then 1 else 0)))
  }

  function DoHostDone(k: Kernel, call: nat, ok: bool, encodes: bool): Kernel {
    if call !in k.calls then k
    else
      var t := k.(calls := k.calls - {call});
      if !IsPending(k, k.calls[call]) then t
      else if !encodes then Reset(t, Some(Unencodable))
      else if t.child.Some? then Sent(t, HostResult(t.child.value, call, ok)) else t
  }

  function DoExit(k: Kernel, child: nat): Kernel {
    if k.child != Some(child) then k else Settled(Taken(k.(child := None, cwd := None)), k.pending, Rejected(Exited))
  }

  function Step(k: Kernel, e: Event): Kernel {
    match e
    case Execute(ask) => DoExecute(k, ask)
    case Reply(cell, ok) => DoReply(k, cell, ok)
    case HostCall(call, cell, tool, bridge) => DoHostCall(k, call, cell, tool, bridge)
    case HostDone(call, ok, encodes) => DoHostDone(k, call, ok, encodes)
    case BadLine => Reset(k, Some(BadReply))
    case Timeout(cell) => if cell in k.timers then Reset(k.(timers := k.timers - {cell}), Some(TimedOut)) else k
    case Abort(cell) => if cell in k.listeners then Reset(k.(listeners := k.listeners - {cell}), Some(Aborted)) else k
    case Exit(child) => DoExit(k, child)
    case ChildError(child) => if k.child == Some(child) then Reset(k, Some(ChildFailed)) else k
    case WriteError(child) => Reset(k, Some(WriteFailed))
    case Close => Reset(k, Some(Shutdown))
  }

  function Run(k: Kernel, es: seq<Event>): Kernel
    decreases |es|
  {
    if es == [] then k else Run(Step(k, es[0]), es[1..])
  }

  function Boot(): Kernel {
    Kernel(None, None, None, {}, {}, map[], 0, 0, [], [])
  }

  // ---------------------------------------------------------------- what every step keeps

  predicate IsSettled(settled: seq<Settlement>, cell: nat) {
    exists i :: 0 <= i < |settled| && settled[i].cell == cell
  }

  predicate DistinctCells(settled: seq<Settlement>) {
    forall i, j :: 0 <= i < j < |settled| ==> settled[i].cell != settled[j].cell
  }

  /** Every accepted cell is pending or settled, not both, and settled once. */
  ghost predicate Accounted(settled: seq<Settlement>, cells: nat, pending: Option<Cell>) {
    && DistinctCells(settled)
    && (forall c: nat :: IsSettled(settled, c) <==> c < cells && !(pending.Some? && pending.value.id == c))
    && (pending.Some? ==> pending.value.id < cells)
  }

  /** A pending cell has the live child it was sent to; timers and handlers are its own. */
  predicate Backed(k: Kernel) {
    && (k.pending.Some? ==> k.child == Some(k.pending.value.child))
    && (forall c :: c in k.timers ==> IsPending(k, c))
    && (forall c :: c in k.listeners ==> IsPending(k, c))
    && (k.child.Some? <==> k.cwd.Some?)
  }

  ghost predicate Inv(k: Kernel) {
    Accounted(k.settled, k.cells, k.pending) && Backed(k)
  }

  lemma SettleAccounts(settled: seq<Settlement>, cells: nat, cell: Cell, verdict: Verdict)
    requires Accounted(settled, cells, Some(cell))
    ensures Accounted(settled + [Settlement(cell.id, verdict)], cells, None)
  {
    var more := settled + [Settlement(cell.id, verdict)];
    forall c: nat ensures IsSettled(more, c) <==> IsSettled(settled, c) || c == cell.id {
      if IsSettled(settled, c) {
        var i :| 0 <= i < |settled| && settled[i].cell == c;
        assert more[i].cell == c;
      }
      if c == cell.id {
        assert more[|settled|].cell == c;
      }
    }
    forall i | 0 <= i < |settled| ensures settled[i].cell != cell.id {
      assert IsSettled(settled, settled[i].cell);
    }
  }

  /** A reset keeps the accounts when it has an error or nothing is pending. */
  lemma ResetKeeps(k: Kernel, why: Option<Reason>)
    requires Accounted(k.settled, k.cells, k.pending) && (k.pending.Some? ==> why.Some?)
    requires forall c :: c in k.timers || c in k.listeners ==> IsPending(k, c)
    ensures Inv(Reset(k, why)) && Reset(k, why).child == None && Reset(k, why).pending == None
  {
    if k.pending.Some? {
      SettleAccounts(k.settled, k.cells, k.pending.value, Rejected(why.value));
    }
  }

  lemma AcceptKeeps(k: Kernel, ask: Ask)
    requires Inv(k) && k.pending.None? && k.child.Some?
    ensures Inv(Accepted(k, ask))
  {
    var c := Cell(k.cells, k.child.value, 0);
    var t := k.(pending := Some(c), cells := k.cells + 1, timers := if ask.timed then k.timers + {c.id} else k.timers,
                listeners := if ask.signal then k.listeners + {c.id} else k.listeners);
    assert Accounted(t.settled, t.cells, t.pending);
    if !ask.encodes {
      ResetKeeps(t, Some(Unencodable));
    }
  }

  lemma ReadyKeeps(k: Kernel, ask: Ask)
    requires Inv(k) && k.pending.None?
    ensures Inv(Readied(k, ask)) && Readied(k, ask).pending.None?
  {
    ResetKeeps(k, None);
  }

  lemma ExecuteKeeps(k: Kernel, ask: Ask)
    requires Inv(k)
    ensures Inv(DoExecute(k, ask))
  {
    if k.pending.None? {
      ReadyKeeps(k, ask);
      var s := Readied(k, ask);
      if s.child.Some? {
        ResetKeeps(s, None);
        AcceptKeeps(s, ask);
      }
    }
  }

  lemma StepKeeps(k: Kernel, e: Event)
    requires Inv(k)
    ensures Inv(Step(k, e))
  {
    match e
    case Execute(ask) => ExecuteKeeps(k, ask);
    case Reply(cell, ok) =>
      if IsPending(k, cell) {
        SettleAccounts(k.settled, k.cells, k.pending.value, if ok then Resolved else Rejected(EvalFailed));
      }
    case HostCall(_, _, _, _) =>
    case HostDone(call, _, _) =>
      if call in k.calls && IsPending(k, k.calls[call]) {
        ResetKeeps(k.(calls := k.calls - {call}), Some(Unencodable));
      }
    case BadLine => ResetKeeps(k, Some(BadReply));
    case Timeout(cell) => ResetKeeps(k.(timers := k.timers - {cell}), Some(TimedOut));
    case Abort(cell) => ResetKeeps(k.(listeners := k.listeners - {cell}), Some(Aborted));
    case Exit(child) =>
      if k.child == Some(child) && k.pending.Some? {
        SettleAccounts(k.settled, k.cells, k.pending.value, Rejected(Exited));
      }
    case ChildError(_) => ResetKeeps(k, Some(ChildFailed));
    case WriteError(_) => ResetKeeps(k, Some(WriteFailed));
    case Close => ResetKeeps(k, Some(Shutdown));
  }

  lemma {:induction false} RunKeeps(k: Kernel, es: seq<Event>)
    requires Inv(k)
    ensures Inv(Run(k, es))
    decreases |es|
  {
    if es != [] {
      StepKeeps(k, es[0]);
      RunKeeps(Step(k, es[0]), es[1..]);
    }
  }

  // ---------------------------------------------------------------- the main results

  /** Settlement: after any run every accepted cell is either the pending one, on
      a live child, or has been settled exactly once. */
  lemma CellsSettleOnce(es: seq<Event>)
    ensures var k := Run(Boot(), es);
      && DistinctCells(k.settled)
      && (forall c: nat :: c < k.cells ==> (IsSettled(k.settled, c) <==> !IsPending(k, c)))
      && (k.pending.Some? ==> k.child == Some(k.pending.value.child))
  {
    RunKeeps(Boot(), es);
  }

  /** No cell is left hanging: when the kernel has no child, every accepted cell is settled. */
  lemma NoChildNoCell(es: seq<Event>, c: nat)
    requires Run(Boot(), es).child.None? && c < Run(Boot(), es).cells
    ensures IsSettled(Run(Boot(), es).settled, c)
  {
    RunKeeps(Boot(), es);
  }

  /** What a step adds to the settlements. */
  function News(k: Kernel, e: Event): seq<Settlement>
    requires |k.settled| <= |Step(k, e).settled|
  {
    Step(k, e).settled[|k.settled|..]
  }

  /** A step settles at most the pending cell, keeps what was settled, and
      resolves it only by a reply that carries its id. */
  lemma OnlyOwnReplyResolves(k: Kernel, e: Event)
    requires Inv(k)
    ensures |k.settled| <= |Step(k, e).settled| <= |k.settled| + 1 && k.settled <= Step(k, e).settled
    ensures forall x :: x in News(k, e) && k.pending.Some? ==> x.cell == k.pending.value.id
    ensures forall x :: x in News(k, e) && x.verdict == Resolved ==> e == Reply(x.cell, true)
  {
    if e.Execute? {
      ExecuteResolvesNone(k, e.ask);
    }
  }

  lemma ExecuteResolvesNone(k: Kernel, ask: Ask)
    requires Inv(k)
    ensures var t := DoExecute(k, ask);
      && |k.settled| <= |t.settled| <= |k.settled| + 1 && k.settled <= t.settled
      && (k.pending.Some? ==> t.settled == k.settled)
      && (|t.settled| > |k.settled| ==> t.settled[|k.settled|].verdict.Rejected?)
  {
  }

  lemma {:induction false} RunResolves(k: Kernel, es: seq<Event>, x: Settlement)
    requires Inv(k) && x in Run(k, es).settled && x.verdict == Resolved
    ensures x in k.settled || Reply(x.cell, true) in es
    decreases |es|
  {
    if es != [] {
      var t := Step(k, es[0]);
      StepKeeps(k, es[0]);
      RunResolves(t, es[1..], x);
      OnlyOwnReplyResolves(k, es[0]);
      if x in t.settled && x !in k.settled {
        assert t.settled == k.settled + News(k, es[0]);
        assert es[0] == Reply(x.cell, true);
      }
    }
  }

  /** Over every run a cell is resolved only if a reply with its id came in. */
  lemma ResolvedCellsWereAnswered(es: seq<Event>, x: Settlement)
    requires x in Run(Boot(), es).settled && x.verdict == Resolved
    ensures Reply(x.cell, true) in es
  {
    RunResolves(Boot(), es, x);
  }

  /** The result of a host call reaches a child only while the cell that made it
      is pending, and then the child that cell runs on. */
  lemma LateHostResultsAreDropped(k: Kernel, call: nat, ok: bool)
    requires Inv(k) && call in k.calls
    ensures var t := Step(k, HostDone(call, ok, true));
      if IsPending(k, k.calls[call]) then t.sent == k.sent + [HostResult(k.pending.value.child, call, ok)] else t.sent == k.sent
  {
  }

  /** Exits and errors of a child that is no longer the kernel's are ignored.  A
      failed write of one is ignored if and only if there is no child: otherwise
      it drops the new child, and rejects a cell if and only if one is pending. */
  lemma StaleChildEvents(k: Kernel, child: nat)
    requires Inv(k) && k.child != Some(child)
    ensures Step(k, Exit(child)) == k && Step(k, ChildError(child)) == k
    ensures Step(k, WriteError(child)) == k <==> k.child.None?
    ensures Step(k, WriteError(child)).child == None
    ensures Step(k, WriteError(child)).settled ==
      k.settled + if k.pending.Some? then [Settlement(k.pending.value.id, Rejected(WriteFailed))] else []
  {
    assert k.settled + [] == k.settled;
  }

  lemma {:induction false} RunSnoc(k: Kernel, es: seq<Event>, e: Event)
    ensures Run(k, es + [e]) == Step(Run(k, es), e)
    decreases |es|
  {
    if es == [] {
      assert es + [e] == [e] && [e][1..] == [];
    } else {
      assert (es + [e])[1..] == es[1..] + [e] && (es + [e])[0] == es[0];
      RunSnoc(Step(k, es[0]), es[1..], e);
    }
  }

  lemma RunThree(k: Kernel, a: Event, b: Event, c: Event)
    ensures Run(k, [a, b, c]) == Step(Step(Step(k, a), b), c)
  {
    RunSnoc(k, [], a);
    RunSnoc(k, [a], b);
    RunSnoc(k, [a, b], c);
    assert [] + [a] == [a] && [a] + [b] == [a, b] && [a, b] + [c] == [a, b, c];
  }

  /** A run that shows it: a cell runs and is answered, the next one resets the
      kernel and runs on a new child, and the late write error of the old child
      rejects it. */
  lemma LateWriteErrorRejectsNewCell(cwd: string)
    ensures var first, second := Ask(cwd, false, true, false, false, false, true), Ask(cwd, true, true, false, false, false, true);
      var es := [Execute(first), Reply(0, true), Execute(second)];
      && IsPending(Run(Boot(), es), 1) && Run(Boot(), es).child == Some(1)
      && Run(Boot(), es + [WriteError(0)]).settled == [Settlement(0, Resolved), Settlement(1, Rejected(WriteFailed))]
  {
    var first, second := Ask(cwd, false, true, false, false, false, true), Ask(cwd, true, true, false, false, false, true);
    var a, b, c, d := Execute(first), Reply(0, true), Execute(second), WriteError(0);
    RunThree(Boot(), a, b, c);
    RunSnoc(Boot(), [a, b, c], d);
    var k1 := Step(Boot(), a);
    assert k1.child == Some(0) && k1.pending == Some(Cell(0, 0, 0)) && k1.settled == [];
    var k2 := Step(k1, b);
    assert k2.pending == None && k2.settled == [Settlement(0, Resolved)];
    var k3 := Step(k2, c);
    assert k3.child == Some(1) && k3.pending == Some(Cell(1, 1, 0)) && k3.settled == k2.settled;
  }

  // ---------------------------------------------------------------- the kernel itself

  class PersistentEvalKernel {
    const bridge: bool
    var child: Option<nat>
    var cwd: Option<string>
    var pending: Option<Cell>
    var timers: set<nat>
    var listeners: set<nat>
    var calls: map<nat, nat>
    var cells: nat
    var children: nat
    ghost var settled: seq<Settlement>
    ghost var sent: seq<Frame>

    ghost function View(): Kernel
      reads this
    {
      Kernel(child, cwd, pending, timers, listeners, calls, cells, children, settled, sent)
    }

    constructor (bridge: bool)
      ensures View() == Boot() && this.bridge == bridge
    {
      this.bridge := bridge;
      child, cwd, pending, timers, listeners, calls := None, None, None, {}, {}, map[];
      cells, children, settled, sent := 0, 0, [], [];
    }

    method TakePending() returns (cell: Option<Cell>)
      modifies this`pending, this`timers, this`listeners
      ensures cell == old(pending) && View() == Taken(old(View()))
    {
      cell := pending;
      pending := None;
      if cell.Some? {
        timers := timers - {cell.value.id};
        listeners := listeners - {cell.value.id};
      }
    }

    method Settle(cell: Option<Cell>, verdict: Verdict)
      modifies this`settled
      ensures View() == Settled(old(View()), cell, verdict)
    {
      if cell.Some? {
        settled := settled + [Settlement(cell.value.id, verdict)];
      }
    }

    method ResetKernel(error: Option<Reason>)
      modifies this
      ensures View() == Reset(old(View()), error)
    {
      child, cwd := None, None;
      var cell := TakePending();
      if error.Some? {
        Settle(cell, Rejected(error.value));
      }
    }

    method ReadyChild(ask: Ask)
      modifies this
      ensures View() == Readied(old(View()), ask)
    {
      if ask.reset || (cwd.Some? && cwd.value != ask.cwd) {
        ResetKernel(None);
      }
      if child.None? && ask.starts {
        child, cwd, children := Some(children), Some(ask.cwd), children + 1;
      }
    }

    method RunCell(ask: Ask) returns (accepted: bool)
      modifies this
      ensures View() == DoExecute(old(View()), ask)
      ensures accepted <==> cells == old(cells) + 1
      ensures !accepted ==> cells == old(cells)
    {
      if pending.Some? {
        return false;
      }
      ReadyChild(ask);
      if child.None? {
        return false;
      }
      if ask.aborted {
        ResetKernel(None);
        return false;
      }
      StartCell(ask);
      return true;
    }

    /** Make a new cell pending and send it to the child. */
    method StartCell(ask: Ask)
      requires child.Some?
      modifies this
      ensures View() == Accepted(old(View()), ask)
    {
      var cell := Cell(cells, child.value, 0);
      pending, cells := Some(cell), cells + 1;
      if ask.timed {
        timers := timers + {cell.id};
      }
      if ask.signal {
        listeners := listeners + {cell.id};
      }
      if ask.encodes {
        sent := sent + [EvalFrame(cell.child, cell.id)];
      } else {
        ResetKernel(Some(Unencodable));
      }
    }

    method HandleEvalResult(cell: nat, ok: bool)
      modifies this
      ensures View() == DoReply(old(View()), cell, ok)
    {
      if pending.None? || pending.value.id != cell {
        return;
      }
      var taken := TakePending();
      Settle(taken, if ok then Resolved else Rejected(EvalFailed));
    }

    method HandleHostCall(call: nat, cell: nat, tool: bool)
      modifies this
      ensures View() == DoHostCall(old(View()), call, cell, tool, bridge)
    {
      if pending.None? || pending.value.id != cell || !bridge {
        if child.Some? {
          sent := sent + [HostResult(child.value, call, false)];
        }
        return;
      }
      if tool {
        pending := Some(pending.value.(toolCalls := pending.value.toolCalls + 1));
      }
      calls := calls[call := cell];
    }

    method HostCallSettled(call: nat, ok: bool, encodes: bool)
      modifies this
      ensures View() == DoHostDone(old(View()), call, ok, encodes)
    {
      if call !in calls {
        return;
      }
      var cell := calls[call];
      calls := calls - {call};
      if pending.None? || pending.value.id != cell {
        return;
      }
      if !encodes {
        ResetKernel(Some(Unencodable));
      } else if child.Some? {
        sent := sent + [HostResult(child.value, call, ok)];
      }
    }

    method OnChildClose(which: nat)
      modifies this
      ensures View() == DoExit(old(View()), which)
    {
      if child != Some(which) {
        return;
      }
      child, cwd := None, None;
      var taken := TakePending();
      Settle(taken, Rejected(Exited));
    }
  }
}
