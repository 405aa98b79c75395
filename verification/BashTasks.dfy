/** Bash tasks: a foreground call answers when its process has exited or when it
    is promoted to the background, a background task tells the agent when it is
    done, and exits, log flushes, promotions, kills, aborts, timeouts and the
    turns of the agent race with one another.

    A task is known by its ordinal.  `answers`, `freed`, `asked`, `produced` and
    `deliveries` are an observer's notes: how each call and each waiter was
    settled, which task each waiter waits for, the notices in the order they
    were drafted, and the batches in which they were handed over.
 */
module BashTasks {

  datatype Option<T> = None | Some(value: T)

  datatype Note<T> = Note(who: nat, what: T)

  datatype Outcome = Promoted | Aborted | TimedOut | Exited(code: Option<int>)

  /** `settler` stands for the foreground settler and the promote function, which
      are set and cleared together. */
  datatype Task = Task(
    foreground: bool, registered: bool, signalAborted: bool, killSent: bool,
    completed: bool, logEnded: bool, exitCode: Option<int>,
    backgrounded: bool, explicitlyKilled: bool, timedOut: bool,
    timeoutArmed: bool, autoArmed: bool, settler: bool, waiters: seq<nat>)

  type Notice = Note<Option<int>>

  /** Notices join the agent's context at a boundary, or are posted as a message. */
  datatype Delivery =
    | Appended(batch: seq<Notice>, goOn: bool)
    | Posted(batch: seq<Notice>, wake: bool)

  datatype Desk = Desk(
    tasks: seq<Task>, agentRunning: bool, pending: seq<Notice>, timers: set<nat>, listeners: set<nat>,
    asked: seq<nat>, freed: seq<Note<bool>>, answers: seq<Note<Outcome>>, produced: seq<Notice>, deliveries: seq<Delivery>)

  datatype Event =
    | Launch(foreground: bool, timed: bool, auto: bool)
    | Register(task: nat)
    | SignalAbort(task: nat)
    | Close(task: nat, code: Option<int>)
    | LogEnd(task: nat)
    | Timeout(task: nat)
    | AutoBackground(task: nat)
    | Promote(task: nat)
    | Kill(task: nat)
    | Shutdown
    | Wait(task: nat, aborted: bool, signal: bool, timed: bool)
    | WaitTimeout(task: nat, waiter: nat)
    | WaitAbort(task: nat, waiter: nat)
    | AgentStart
    | Boundary(goOn: bool, completed: bool)
    | AgentSettled(aborted: bool)

  function Boot(): Desk {
    Desk([], false, [], {}, {}, [], [], [], [], [])
  }

  // ---------------------------------------------------------------- transitions

  function Put(d: Desk, t: nat, x: Task): Desk
    requires t < |d.tasks|
  {
    d.(tasks := d.tasks[t := x])
  }

  function OutcomeOf(x: Task): Outcome {
    if x.backgrounded then Promoted else if x.signalAborted then Aborted else if x.timedOut then TimedOut else Exited(x.exitCode)
  }

  /** The call answers and lets go of its settler. */
  function Settled(d: Desk, t: nat): Desk
    requires t < |d.tasks|
  {
    Put(d, t, d.tasks[t].(settler := false)).(answers := d.answers + [Note(t, OutcomeOf(d.tasks[t]))])
  }

  function Launched(foreground: bool, timed: bool, auto: bool): Task {
    Task(foreground, false, false, false, false, false, None, !foreground, false, false, timed, foreground && auto, false, [])
  }

  /** A call takes charge of its task; the process may have exited meanwhile. */
  function DoRegister(d: Desk, t: nat): Desk
    requires t < |d.tasks|
  {
    var x := d.tasks[t];
    if x.registered then d
    else if !x.foreground then Put(d, t, x.(registered := true))
    else
      var d' := Put(d, t, x.(registered := true, settler := true, killSent := x.killSent || x.signalAborted));
      if x.completed then Settled(d', t) else d'
  }

  function DoSignalAbort(d: Desk, t: nat): Desk
    requires t < |d.tasks|
  {
    var x := d.tasks[t];
    Put(d, t, x.(signalAborted := true, killSent := x.killSent || x.settler))
  }

  function DoClose(d: Desk, t: nat, code: Option<int>): Desk
    requires t < |d.tasks|
  {
    var x := d.tasks[t];
    if x.completed then d else Put(d, t, x.(completed := true, exitCode := code, timeoutArmed := false, autoArmed := false))
  }

  /** A notice waits for the next boundary while the agent runs, and is posted at once otherwise. */
  function Notified(d: Desk, n: Notice): Desk {
    var d' := d.(produced := d.produced + [n]);
    if d.agentRunning then d'.(pending := d.pending + [n]) else d'.(deliveries := d.deliveries + [Posted([n], true)])
  }

  function Notes(ws: seq<nat>): seq<Note<bool>> {
    seq(|ws|, i requires 0 <= i < |ws| => Note(ws[i], true))
  }

  predicate Tells(x: Task) {
    x.backgrounded && !x.explicitlyKilled
  }

  function Told(d: Desk, t: nat, x: Task): Desk {
    if Tells(x) then Notified(d, Note(t, x.exitCode)) else d
  }

  /** The log is flushed: a background task tells, a call still in charge answers,
      and every waiter is released. */
  function DoLogEnd(d: Desk, t: nat): Desk
    requires t < |d.tasks|
  {
    var x := d.tasks[t];
    if !x.completed || x.logEnded then d
    else
      var y := x.(logEnded := true, settler := false, waiters := []);
      var gone := set w | w in x.waiters;
      Told(d, t, y).(tasks := d.tasks[t := y],
        answers := if x.settler then d.answers + [Note(t, OutcomeOf(y))] else d.answers,
        timers := d.timers - gone, listeners := d.listeners - gone, freed := d.freed + Notes(x.waiters))
  }

  function DoPromote(d: Desk, t: nat): Desk
    requires t < |d.tasks|
  {
    var x := d.tasks[t];
    if !x.settler || x.completed || x.backgrounded then d
    else Settled(Put(d, t, x.(autoArmed := false, backgrounded := true)), t)
  }

  function DoTimeout(d: Desk, t: nat): Desk
    requires t < |d.tasks|
  {
    var x := d.tasks[t];
    if !x.timeoutArmed then d else Put(d, t, x.(timeoutArmed := false, timedOut := true, killSent := true))
  }

  function DoAutoBackground(d: Desk, t: nat): Desk
    requires t < |d.tasks|
  {
    var x := d.tasks[t];
    if !x.autoArmed then d else DoPromote(Put(d, t, x.(autoArmed := false)), t)
  }

  /** Only a task on the list that has not exited can be killed. */
  function DoKill(d: Desk, t: nat): Desk
    requires t < |d.tasks|
  {
    var x := d.tasks[t];
    if !x.registered || x.completed then d else Put(d, t, x.(explicitlyKilled := true, killSent := true))
  }

  function ShutDown(x: Task): Task {
    if !x.registered || x.completed then x else x.(autoArmed := false, explicitlyKilled := true, killSent := true)
  }

  function DoShutdown(d: Desk): Desk {
    d.(tasks := seq(|d.tasks|, i requires 0 <= i < |d.tasks| => ShutDown(d.tasks[i])))
  }

  function Freed(d: Desk, w: nat, ok: bool): Desk {
    d.(timers := d.timers - {w}, listeners := d.listeners - {w}, freed := d.freed + [Note(w, ok)])
  }

  function DoWait(d: Desk, t: nat, aborted: bool, signal: bool, timed: bool): Desk
    requires t < |d.tasks|
  {
    var x, w := d.tasks[t], |d.asked|;
    if !x.registered then d
    else
      var d' := d.(asked := d.asked + [t]);
      if x.completed then Freed(d', w, true)
      else if aborted then Freed(d', w, false)
      else Put(d', t, x.(waiters := x.waiters + [w])).(
             timers := if timed then d.timers + {w} else d.timers, listeners := if signal then d.listeners + {w} else d.listeners)
  }

  function Without(ws: seq<nat>, w: nat): seq<nat> {
    if ws == [] then [] else if ws[0] == w then Without(ws[1..], w) else [ws[0]] + Without(ws[1..], w)
  }

  /** A waiter leaves on its own: its time is up, or its own call is aborted. */
  function Left(d: Desk, t: nat, w: nat, ok: bool): Desk
    requires t < |d.tasks|
  {
    var x := d.tasks[t];
    if w !in x.waiters then d else Freed(Put(d, t, x.(waiters := Without(x.waiters, w))), w, ok)
  }

  function DoBoundary(d: Desk, goOn: bool): Desk {
    if d.pending == [] then d else d.(pending := [], deliveries := d.deliveries + [Appended(d.pending, goOn)])
  }

  function DoAgentSettled(d: Desk, aborted: bool): Desk {
    var d' := d.(agentRunning := false, pending := []);
    if d.pending == [] then d' else d'.(deliveries := d.deliveries + [Posted(d.pending, !aborted)])
  }

  predicate OfTask(e: Event) {
    !(e.Launch? || e.Shutdown? || e.AgentStart? || e.Boundary? || e.AgentSettled?)
  }

  function TaskStep(d: Desk, e: Event): Desk
    requires OfTask(e) && e.task < |d.tasks|
  {
    match e
    case Register(t) => DoRegister(d, t)
    case SignalAbort(t) => DoSignalAbort(d, t)
    case Close(t, code) => DoClose(d, t, code)
    case LogEnd(t) => DoLogEnd(d, t)
    case Timeout(t) => DoTimeout(d, t)
    case AutoBackground(t) => DoAutoBackground(d, t)
    case Promote(t) => DoPromote(d, t)
    case Kill(t) => DoKill(d, t)
    case Wait(t, aborted, signal, timed) => DoWait(d, t, aborted, signal, timed)
    case WaitTimeout(t, w) => if w in d.timers then Left(d, t, w, true) else d
    case WaitAbort(t, w) => if w in d.listeners then Left(d, t, w, false) else d
  }

  function Step(d: Desk, e: Event): Desk {
    match e
    case Launch(foreground, timed, auto) => d.(tasks := d.tasks + [Launched(foreground, timed, auto)])
    case Shutdown => DoShutdown(d)
    case AgentStart => d.(agentRunning := true)
    case Boundary(goOn, completed) => DoBoundary(d, goOn || completed)
    case AgentSettled(aborted) => DoAgentSettled(d, aborted)
    case _ => if e.task < |d.tasks| then TaskStep(d, e) else d
  }

  function Run(d: Desk, es: seq<Event>): Desk
    decreases |es|
  {
    if es == [] then d else Run(Step(d, es[0]), es[1..])
  }

  // ---------------------------------------------------------------- notes that are made once

  predicate Has<T(==)>(s: seq<Note<T>>, who: nat) {
    exists n :: n in s && n.who == who
  }

  predicate Once<T>(s: seq<Note<T>>) {
    forall i, j :: 0 <= i < j < |s| ==> s[i].who != s[j].who
  }

  lemma NotedOnce<T>(s: seq<Note<T>>, n: Note<T>)
    requires Once(s) && !Has(s, n.who)
    ensures Once(s + [n]) && forall who: nat :: Has(s + [n], who) <==> Has(s, who) || who == n.who
  {
    forall who: nat ensures Has(s + [n], who) <==> Has(s, who) || who == n.who {
      assert n in s + [n];
      if Has(s, who) {
        var m :| m in s && m.who == who;
        assert m in s + [n];
      }
    }
  }

  predicate NoRepeat(ws: seq<nat>) {
    forall i, j :: 0 <= i < j < |ws| ==> ws[i] != ws[j]
  }

  lemma NotesHave(freed: seq<Note<bool>>, ws: seq<nat>, w: nat)
    ensures Has(freed + Notes(ws), w) <==> Has(freed, w) || w in ws
  {
    var all := freed + Notes(ws);
    if Has(freed, w) {
      var n :| n in freed && n.who == w;
      assert n in all;
    } else if w in ws {
      var i :| 0 <= i < |ws| && ws[i] == w;
      assert all[|freed| + i] == Note(w, true);
    }
  }

  lemma NotesOnce(freed: seq<Note<bool>>, ws: seq<nat>)
    requires Once(freed) && NoRepeat(ws) && forall w :: w in ws ==> !Has(freed, w)
    ensures Once(freed + Notes(ws))
  {
    var all := freed + Notes(ws);
    forall i, j | 0 <= i < j < |all| ensures all[i].who != all[j].who {
      if i < |freed| <= j {
        assert all[i] in freed && ws[j - |freed|] in ws;
      }
    }
  }

  lemma {:induction false} WithoutDrops(ws: seq<nat>, w: nat)
    requires NoRepeat(ws)
    ensures NoRepeat(Without(ws, w)) && forall v :: v in Without(ws, w) <==> v in ws && v != w
    decreases |ws|
  {
    if ws != [] {
      WithoutDrops(ws[1..], w);
      var rest := Without(ws[1..], w);
      assert forall j :: 0 <= j < |rest| ==> rest[j] in ws[1..];
      assert forall v :: v in ws <==> v == ws[0] || v in ws[1..];
      assert forall v :: v in ws[1..] ==> v != ws[0];
    }
  }

  // ---------------------------------------------------------------- what every step keeps

  predicate TaskOk(x: Task) {
    && (x.logEnded ==> x.completed && x.waiters == [])
    && (x.settler ==> x.foreground && x.registered && !x.backgrounded && !x.logEnded)
    && (!x.foreground ==> x.backgrounded)
    && (x.foreground && x.backgrounded ==> x.registered)
    && (x.foreground && x.registered && !x.settler && !x.backgrounded ==> x.completed)
    && (x.timeoutArmed || x.autoArmed ==> !x.completed)
    && (x.timedOut || x.explicitlyKilled || (x.settler && x.signalAborted) ==> x.killSent)
  }

  predicate Answers(x: Task) {
    x.foreground && x.registered && !x.settler
  }

  /** What a call answered agrees with its task for good. */
  predicate Fits(x: Task, o: Outcome) {
    && (o == Promoted <==> x.backgrounded)
    && (o == Aborted ==> x.signalAborted)
    && (o == TimedOut ==> x.timedOut)
    && (o.Exited? ==> x.completed && !x.timedOut && o.code == x.exitCode)
  }

  predicate CallsOk(tasks: seq<Task>, answers: seq<Note<Outcome>>) {
    && Once(answers)
    && (forall n :: n in answers ==> n.who < |tasks| && Answers(tasks[n.who]) && Fits(tasks[n.who], n.what))
    && (forall t: nat :: t < |tasks| && Answers(tasks[t]) ==> Has(answers, t))
  }

  predicate NoticesOk(tasks: seq<Task>, produced: seq<Notice>) {
    && Once(produced)
    && (forall n :: n in produced ==> n.who < |tasks| && tasks[n.who].logEnded && Tells(tasks[n.who]) && n.what == tasks[n.who].exitCode)
    && (forall t: nat :: t < |tasks| && tasks[t].logEnded && Tells(tasks[t]) ==> Has(produced, t))
  }

  /** The waiters of a task are those that asked for it and were not released. */
  ghost predicate WaitFor(ws: seq<nat>, t: nat, asked: seq<nat>, freed: seq<Note<bool>>) {
    NoRepeat(ws) && forall w: nat :: w in ws <==> w < |asked| && asked[w] == t && !Has(freed, w)
  }

  ghost predicate WaitersOk(tasks: seq<Task>, asked: seq<nat>, freed: seq<Note<bool>>, timers: set<nat>, listeners: set<nat>) {
    && Once(freed)
    && (forall n :: n in freed ==> n.who < |asked|)
    && (forall w: nat :: w < |asked| ==> asked[w] < |tasks|)
    && (forall t: nat :: t < |tasks| ==> WaitFor(tasks[t].waiters, t, asked, freed))
    && (forall w :: w in timers || w in listeners ==> w < |asked| && !Has(freed, w))
  }

  function Flat(ds: seq<Delivery>): seq<Notice> {
    if ds == [] then [] else Flat(ds[..|ds| - 1]) + ds[|ds| - 1].batch
  }

  predicate DeliveryOk(d: Desk) {
    && Flat(d.deliveries) + d.pending == d.produced
    && (!d.agentRunning ==> d.pending == [])
    && (forall x :: x in d.deliveries ==> x.batch != [])
  }

  predicate TasksOk(tasks: seq<Task>) {
    forall x :: x in tasks ==> TaskOk(x)
  }

  ghost predicate Inv(d: Desk) {
    && TasksOk(d.tasks)
    && CallsOk(d.tasks, d.answers)
    && NoticesOk(d.tasks, d.produced)
    && WaitersOk(d.tasks, d.asked, d.freed, d.timers, d.listeners)
    && DeliveryOk(d)
  }

  // ---------------------------------------------------------------- one task changes

  /** A change of one task that settles and tells nothing. */
  predicate Quiet(x: Task, y: Task) {
    && TaskOk(y)
    && y.foreground == x.foreground && y.backgrounded == x.backgrounded && y.waiters == x.waiters
    && y.logEnded == x.logEnded && Answers(y) == Answers(x)
    && (x.completed ==> y.completed && y.exitCode == x.exitCode && y.timedOut == x.timedOut && y.explicitlyKilled == x.explicitlyKilled)
    && (x.signalAborted ==> y.signalAborted) && (x.timedOut ==> y.timedOut)
  }

  predicate AllQuiet(tasks: seq<Task>, ts: seq<Task>) {
    |ts| == |tasks| && forall t: nat :: t < |ts| ==> Quiet(tasks[t], ts[t])
  }

  lemma QuietCalls(tasks: seq<Task>, ts: seq<Task>, answers: seq<Note<Outcome>>)
    requires TasksOk(tasks) && AllQuiet(tasks, ts) && CallsOk(tasks, answers)
    ensures CallsOk(ts, answers)
  {
    forall n | n in answers ensures n.who < |ts| && Answers(ts[n.who]) && Fits(ts[n.who], n.what) {
      assert TaskOk(tasks[n.who]) && Quiet(tasks[n.who], ts[n.who]);
    }
  }

  lemma QuietNotices(tasks: seq<Task>, ts: seq<Task>, produced: seq<Notice>)
    requires TasksOk(tasks) && AllQuiet(tasks, ts) && NoticesOk(tasks, produced)
    ensures NoticesOk(ts, produced)
  {
    forall t: nat | t < |ts| ensures (ts[t].logEnded && Tells(ts[t]) <==> tasks[t].logEnded && Tells(tasks[t])) && (ts[t].logEnded ==> ts[t].exitCode == tasks[t].exitCode) {
      assert TaskOk(tasks[t]) && Quiet(tasks[t], ts[t]);
    }
  }

  lemma QuietWaiters(tasks: seq<Task>, ts: seq<Task>, asked: seq<nat>, freed: seq<Note<bool>>, timers: set<nat>, listeners: set<nat>)
    requires AllQuiet(tasks, ts) && WaitersOk(tasks, asked, freed, timers, listeners)
    ensures WaitersOk(ts, asked, freed, timers, listeners)
  {
    assert forall t: nat :: t < |ts| ==> ts[t].waiters == tasks[t].waiters;
  }

  lemma AllQuietKeeps(d: Desk, ts: seq<Task>)
    requires Inv(d) && AllQuiet(d.tasks, ts)
    ensures Inv(d.(tasks := ts))
  {
    assert TasksOk(ts);
    QuietCalls(d.tasks, ts, d.answers);
    QuietNotices(d.tasks, ts, d.produced);
    QuietWaiters(d.tasks, ts, d.asked, d.freed, d.timers, d.listeners);
  }

  lemma QuietKeeps(d: Desk, t: nat, y: Task)
    requires Inv(d) && t < |d.tasks| && Quiet(d.tasks[t], y)
    ensures Inv(Put(d, t, y))
  {
    assert forall u: nat :: u < |d.tasks| ==> TaskOk(d.tasks[u]);
    AllQuietKeeps(d, d.tasks[t := y]);
  }

  lemma SettleCall(tasks: seq<Task>, answers: seq<Note<Outcome>>, t: nat, y: Task)
    requires CallsOk(tasks, answers) && TasksOk(tasks) && t < |tasks| && !Answers(tasks[t])
    requires TaskOk(y) && Answers(y) && (!y.backgrounded ==> y.completed)
    ensures CallsOk(tasks[t := y], answers + [Note(t, OutcomeOf(y))])
  {
    var n := Note(t, OutcomeOf(y));
    NotedOnce(answers, n);
  }

  lemma OthersCalls(tasks: seq<Task>, answers: seq<Note<Outcome>>, t: nat, y: Task)
    requires CallsOk(tasks, answers) && t < |tasks| && !Answers(tasks[t]) && !Answers(y)
    ensures CallsOk(tasks[t := y], answers)
  {
  }

  lemma OthersNotices(tasks: seq<Task>, produced: seq<Notice>, t: nat, y: Task)
    requires NoticesOk(tasks, produced) && t < |tasks| && !(tasks[t].logEnded && Tells(tasks[t])) && !(y.logEnded && Tells(y))
    ensures NoticesOk(tasks[t := y], produced)
  {
  }

  lemma DraftNotice(tasks: seq<Task>, produced: seq<Notice>, t: nat, y: Task)
    requires NoticesOk(tasks, produced) && t < |tasks| && !tasks[t].logEnded && y.logEnded && Tells(y)
    ensures NoticesOk(tasks[t := y], produced + [Note(t, y.exitCode)])
  {
    NotedOnce(produced, Note(t, y.exitCode));
  }

  lemma SameWaiters(tasks: seq<Task>, asked: seq<nat>, freed: seq<Note<bool>>, timers: set<nat>, listeners: set<nat>, t: nat, y: Task)
    requires WaitersOk(tasks, asked, freed, timers, listeners) && t < |tasks| && y.waiters == tasks[t].waiters
    ensures WaitersOk(tasks[t := y], asked, freed, timers, listeners)
  {
    var ts := tasks[t := y];
    assert forall u: nat :: u < |ts| ==> ts[u].waiters == tasks[u].waiters;
  }

  lemma SameTasks(tasks: seq<Task>, t: nat, y: Task)
    requires TasksOk(tasks) && t < |tasks| && TaskOk(y)
    ensures TasksOk(tasks[t := y])
  {
  }

  /** A call settles: the task changes to one that has answered. */
  lemma SettledKeeps(d: Desk, t: nat, y: Task, d': Desk)
    requires Inv(d) && t < |d.tasks| && !Answers(d.tasks[t]) && !(d.tasks[t].logEnded && Tells(d.tasks[t]))
    requires TaskOk(y) && Answers(y) && !(y.logEnded && Tells(y)) && y.waiters == d.tasks[t].waiters && (!y.backgrounded ==> y.completed)
    requires d' == d.(tasks := d.tasks[t := y], answers := d.answers + [Note(t, OutcomeOf(y))])
    ensures Inv(d')
  {
    SameTasks(d.tasks, t, y);
    SettleCall(d.tasks, d.answers, t, y);
    OthersNotices(d.tasks, d.produced, t, y);
    SameWaiters(d.tasks, d.asked, d.freed, d.timers, d.listeners, t, y);
  }

  lemma RegisterKeeps(d: Desk, t: nat)
    requires Inv(d) && t < |d.tasks|
    ensures Inv(DoRegister(d, t))
  {
    var x := d.tasks[t];
    assert TaskOk(x);
    if !x.registered {
      if !x.foreground {
        QuietKeeps(d, t, x.(registered := true));
      } else {
        var y := x.(registered := true, settler := true, killSent := x.killSent || x.signalAborted);
        if x.completed {
          assert d.tasks[t := y][t := y.(settler := false)] == d.tasks[t := y.(settler := false)];
          SettledKeeps(d, t, y.(settler := false), DoRegister(d, t));
        } else {
          QuietKeeps(d, t, y);
        }
      }
    }
  }

  lemma PromoteKeeps(d: Desk, t: nat)
    requires Inv(d) && t < |d.tasks|
    ensures Inv(DoPromote(d, t))
  {
    var x := d.tasks[t];
    assert TaskOk(x);
    if x.settler && !x.completed {
      var y := x.(autoArmed := false, backgrounded := true);
      assert d.tasks[t := y][t := y.(settler := false)] == d.tasks[t := y.(settler := false)];
      SettledKeeps(d, t, y.(settler := false), DoPromote(d, t));
    }
  }

  lemma FlatAdds(ds: seq<Delivery>, x: Delivery)
    ensures Flat(ds + [x]) == Flat(ds) + x.batch
  {
    assert (ds + [x])[..|ds|] == ds;
  }

  lemma NotifyDelivers(d: Desk, n: Notice)
    requires DeliveryOk(d)
    ensures DeliveryOk(Notified(d, n))
  {
    if d.agentRunning {
      assert Flat(d.deliveries) + (d.pending + [n]) == (Flat(d.deliveries) + d.pending) + [n];
    } else {
      FlatAdds(d.deliveries, Posted([n], true));
    }
  }

  /** The notice is drafted when the task has one to give. */
  lemma TellKeeps(d: Desk, t: nat, y: Task)
    requires Inv(d) && t < |d.tasks| && !d.tasks[t].logEnded && y.logEnded
    ensures DeliveryOk(Told(d, t, y)) && NoticesOk(d.tasks[t := y], Told(d, t, y).produced)
  {
    if Tells(y) {
      NotifyDelivers(d, Note(t, y.exitCode));
      DraftNotice(d.tasks, d.produced, t, y);
    } else {
      OthersNotices(d.tasks, d.produced, t, y);
    }
  }

  lemma ReleaseKeeps(tasks: seq<Task>, asked: seq<nat>, freed: seq<Note<bool>>, timers: set<nat>, listeners: set<nat>, t: nat, y: Task)
    requires WaitersOk(tasks, asked, freed, timers, listeners) && t < |tasks| && y.waiters == []
    ensures var ws := tasks[t].waiters;
      var gone := set w | w in ws;
      WaitersOk(tasks[t := y], asked, freed + Notes(ws), timers - gone, listeners - gone)
  {
    var ws, ts := tasks[t].waiters, tasks[t := y];
    var all := freed + Notes(ws);
    assert WaitFor(ws, t, asked, freed);
    NotesOnce(freed, ws);
    forall w: nat ensures Has(all, w) <==> Has(freed, w) || w in ws {
      NotesHave(freed, ws, w);
    }
    forall n | n in all ensures n.who < |asked| {
      assert Has(all, n.who);
    }
    forall u: nat | u < |ts| ensures WaitFor(ts[u].waiters, u, asked, all) {
      assert WaitFor(tasks[u].waiters, u, asked, freed);
    }
  }

  lemma SameAnswers(tasks: seq<Task>, answers: seq<Note<Outcome>>, t: nat, y: Task)
    requires CallsOk(tasks, answers) && t < |tasks|
    requires var x := tasks[t]; y == x.(logEnded := true, settler := false, waiters := []) && !x.settler
    ensures CallsOk(tasks[t := y], answers)
  {
  }

  /** Flushing the log tells, settles and releases, each at most once. */
  lemma LogEndKeeps(d: Desk, t: nat)
    requires Inv(d) && t < |d.tasks|
    ensures Inv(DoLogEnd(d, t))
  {
    var x := d.tasks[t];
    assert TaskOk(x);
    if x.completed && !x.logEnded {
      var y := x.(logEnded := true, settler := false, waiters := []);
      SameTasks(d.tasks, t, y);
      TellKeeps(d, t, y);
      ReleaseKeeps(d.tasks, d.asked, d.freed, d.timers, d.listeners, t, y);
      if x.settler {
        SettleCall(d.tasks, d.answers, t, y);
      } else {
        SameAnswers(d.tasks, d.answers, t, y);
      }
    }
  }

  lemma WaitKeeps(d: Desk, t: nat, aborted: bool, signal: bool, timed: bool)
    requires Inv(d) && t < |d.tasks|
    ensures Inv(DoWait(d, t, aborted, signal, timed))
  {
    var x, w := d.tasks[t], |d.asked|;
    assert TaskOk(x);
    assert !Has(d.freed, w);
    if x.registered && (x.completed || aborted) {
      FreedAtOnce(d.tasks, d.asked, d.freed, d.timers, d.listeners, t, Note(w, x.completed));
    } else if x.registered {
      var y := x.(waiters := x.waiters + [w]);
      SameTasks(d.tasks, t, y);
      WaiterJoins(d.tasks, d.asked, d.freed, d.timers, d.listeners, t, y, timed, signal);
      WaitersApart(d, t, y);
    }
  }

  lemma FreedAtOnce(tasks: seq<Task>, asked: seq<nat>, freed: seq<Note<bool>>, timers: set<nat>, listeners: set<nat>, t: nat, n: Note<bool>)
    requires WaitersOk(tasks, asked, freed, timers, listeners) && t < |tasks| && n.who == |asked|
    ensures WaitersOk(tasks, asked + [t], freed + [n], timers - {n.who}, listeners - {n.who})
  {
    assert !Has(freed, n.who);
    NotedOnce(freed, n);
    forall u: nat | u < |tasks| ensures WaitFor(tasks[u].waiters, u, asked + [t], freed + [n]) {
      assert WaitFor(tasks[u].waiters, u, asked, freed);
    }
  }

  lemma WaiterJoins(tasks: seq<Task>, asked: seq<nat>, freed: seq<Note<bool>>, timers: set<nat>, listeners: set<nat>, t: nat, y: Task, timed: bool, signal: bool)
    requires WaitersOk(tasks, asked, freed, timers, listeners) && t < |tasks| && y.waiters == tasks[t].waiters + [|asked|]
    ensures var w := |asked|;
      WaitersOk(tasks[t := y], asked + [t], freed, if timed then timers + {w} else timers, if signal then listeners + {w} else listeners)
  {
    var ts, w := tasks[t := y], |asked|;
    assert !Has(freed, w);
    forall u: nat | u < |ts| ensures WaitFor(ts[u].waiters, u, asked + [t], freed) {
      assert WaitFor(tasks[u].waiters, u, asked, freed);
      assert w !in tasks[u].waiters;
    }
  }

  /** Who waits for a task concerns neither calls nor notices. */
  lemma WaitersApart(d: Desk, t: nat, y: Task)
    requires Inv(d) && t < |d.tasks| && y == d.tasks[t].(waiters := y.waiters)
    ensures CallsOk(d.tasks[t := y], d.answers) && NoticesOk(d.tasks[t := y], d.produced)
  {
  }

  lemma WaiterLeaves(tasks: seq<Task>, asked: seq<nat>, freed: seq<Note<bool>>, timers: set<nat>, listeners: set<nat>, t: nat, y: Task, n: Note<bool>)
    requires WaitersOk(tasks, asked, freed, timers, listeners) && t < |tasks| && n.who in tasks[t].waiters
    requires y.waiters == Without(tasks[t].waiters, n.who)
    ensures WaitersOk(tasks[t := y], asked, freed + [n], timers - {n.who}, listeners - {n.who})
  {
    var ts := tasks[t := y];
    assert WaitFor(tasks[t].waiters, t, asked, freed);
    NotedOnce(freed, n);
    WithoutDrops(tasks[t].waiters, n.who);
    forall u: nat | u < |ts| ensures WaitFor(ts[u].waiters, u, asked, freed + [n]) {
      assert WaitFor(tasks[u].waiters, u, asked, freed);
    }
  }

  lemma LeftKeeps(d: Desk, t: nat, w: nat, ok: bool)
    requires Inv(d) && t < |d.tasks|
    ensures Inv(Left(d, t, w, ok))
  {
    var x := d.tasks[t];
    if w in x.waiters {
      assert TaskOk(x);
      var y := x.(waiters := Without(x.waiters, w));
      SameTasks(d.tasks, t, y);
      WaiterLeaves(d.tasks, d.asked, d.freed, d.timers, d.listeners, t, y, Note(w, ok));
      WaitersApart(d, t, y);
    }
  }

  lemma ShutdownKeeps(d: Desk)
    requires Inv(d)
    ensures Inv(DoShutdown(d))
  {
    assert forall t: nat :: t < |d.tasks| ==> TaskOk(d.tasks[t]);
    AllQuietKeeps(d, DoShutdown(d).tasks);
  }

  lemma LaunchKeeps(d: Desk, x: Task)
    requires Inv(d) && TaskOk(x) && !Answers(x) && !x.logEnded && x.waiters == []
    ensures Inv(d.(tasks := d.tasks + [x]))
  {
    var ts := d.tasks + [x];
    assert CallsOk(ts, d.answers);
    assert NoticesOk(ts, d.produced);
    assert WaitersOk(ts, d.asked, d.freed, d.timers, d.listeners);
  }

  lemma DeliveriesKeep(d: Desk, x: Delivery, running: bool)
    requires Inv(d) && d.pending != [] && x.batch == d.pending
    ensures Inv(d.(agentRunning := running, pending := [], deliveries := d.deliveries + [x]))
  {
    FlatAdds(d.deliveries, x);
  }

  /** Events that change how a task stands and settle nothing. */
  lemma QuietStepKeeps(d: Desk, e: Event)
    requires Inv(d) && (e.SignalAbort? || e.Close? || e.Timeout? || e.Kill?) && e.task < |d.tasks|
    ensures Inv(TaskStep(d, e))
  {
    var x := d.tasks[e.task];
    assert TaskOk(x);
    match e
    case SignalAbort(t) => QuietKeeps(d, t, x.(signalAborted := true, killSent := x.killSent || x.settler));
    case Close(t, code) =>
      if !x.completed {
        QuietKeeps(d, t, x.(completed := true, exitCode := code, timeoutArmed := false, autoArmed := false));
      }
    case Timeout(t) =>
      if x.timeoutArmed {
        QuietKeeps(d, t, x.(timeoutArmed := false, timedOut := true, killSent := true));
      }
    case Kill(t) =>
      if x.registered && !x.completed {
        QuietKeeps(d, t, x.(explicitlyKilled := true, killSent := true));
      }
  }

  lemma AutoBackgroundKeeps(d: Desk, t: nat)
    requires Inv(d) && t < |d.tasks|
    ensures Inv(DoAutoBackground(d, t))
  {
    var x := d.tasks[t];
    assert TaskOk(x);
    if x.autoArmed {
      QuietKeeps(d, t, x.(autoArmed := false));
      PromoteKeeps(Put(d, t, x.(autoArmed := false)), t);
    }
  }

  lemma TaskStepKeeps(d: Desk, e: Event)
    requires Inv(d) && OfTask(e) && e.task < |d.tasks|
    ensures Inv(TaskStep(d, e))
  {
    match e
    case Register(t) => RegisterKeeps(d, t);
    case LogEnd(t) => LogEndKeeps(d, t);
    case AutoBackground(t) => AutoBackgroundKeeps(d, t);
    case Promote(t) => PromoteKeeps(d, t);
    case Wait(t, aborted, signal, timed) => WaitKeeps(d, t, aborted, signal, timed);
    case WaitTimeout(t, w) => LeftKeeps(d, t, w, true);
    case WaitAbort(t, w) => LeftKeeps(d, t, w, false);
    case _ => QuietStepKeeps(d, e);
  }

  /** Every event keeps calls, notices, waiters and deliveries accounted for. */
  lemma StepKeeps(d: Desk, e: Event)
    requires Inv(d)
    ensures Inv(Step(d, e))
  {
    if OfTask(e) {
      if e.task < |d.tasks| {
        TaskStepKeeps(d, e);
      }
    } else if e.Launch? {
      LaunchKeeps(d, Launched(e.foreground, e.timed, e.auto));
    } else if e.Shutdown? {
      ShutdownKeeps(d);
    } else {
      TurnKeeps(d, e);
    }
  }

  lemma TurnKeeps(d: Desk, e: Event)
    requires Inv(d) && (e.AgentStart? || e.Boundary? || e.AgentSettled?)
    ensures Inv(Step(d, e))
  {
    match e
    case AgentStart =>
    case Boundary(goOn, completed) => BoundaryKeeps(d, goOn || completed);
    case AgentSettled(aborted) => AgentSettledKeeps(d, aborted);
  }

  lemma BoundaryKeeps(d: Desk, goOn: bool)
    requires Inv(d)
    ensures Inv(DoBoundary(d, goOn))
  {
    if d.pending != [] {
      DeliveriesKeep(d, Appended(d.pending, goOn), d.agentRunning);
    }
  }

  lemma AgentSettledKeeps(d: Desk, aborted: bool)
    requires Inv(d)
    ensures Inv(DoAgentSettled(d, aborted))
  {
    if d.pending != [] {
      DeliveriesKeep(d, Posted(d.pending, !aborted), false);
    }
  }

  lemma {:induction false} RunKeeps(d: Desk, es: seq<Event>)
    requires Inv(d)
    ensures Inv(Run(d, es))
    decreases |es|
  {
    if es != [] {
      StepKeeps(d, es[0]);
      RunKeeps(Step(d, es[0]), es[1..]);
    }
  }

  lemma Reached(es: seq<Event>)
    ensures Inv(Run(Boot(), es))
  {
    RunKeeps(Boot(), es);
  }

  // ---------------------------------------------------------------- the main results

  /** Calls: after any run a foreground call that is in charge of its task has
      answered at most once, and has not only while its process runs or its log
      is being flushed; it answers that it was promoted exactly when the task went
      to the background, and otherwise what its own exit, timeout or signal says. */
  lemma CallsSettleOnce(es: seq<Event>, t: nat)
    requires t < |Run(Boot(), es).tasks| && Run(Boot(), es).tasks[t].foreground
    ensures var d := Run(Boot(), es);
      var x := d.tasks[t];
      && Once(d.answers)
      && (Has(d.answers, t) <==> x.registered && !x.settler)
      && (x.registered && !Has(d.answers, t) ==> !x.logEnded && (x.signalAborted ==> x.killSent))
      && (forall n :: n in d.answers && n.who == t ==> Fits(x, n.what))
  {
    Reached(es);
    assert Run(Boot(), es).tasks[t] in Run(Boot(), es).tasks;
  }

  /** Results: once the log is flushed the result of a task reaches exactly one
      reader: its own call, or one notice when it went to the background, or
      nobody but the one who killed it there. */
  lemma ResultsAreToldOnce(es: seq<Event>, t: nat)
    requires t < |Run(Boot(), es).tasks|
    ensures var d := Run(Boot(), es);
      var x := d.tasks[t];
      && Once(d.produced)
      && (Has(d.produced, t) <==> x.logEnded && x.backgrounded && !x.explicitlyKilled)
      && (forall n :: n in d.produced && n.who == t ==> n.what == x.exitCode)
      && (x.logEnded && x.registered && !x.backgrounded ==> Has(d.answers, t) && Note(t, Promoted) !in d.answers)
  {
    Reached(es);
    assert Run(Boot(), es).tasks[t] in Run(Boot(), es).tasks;
  }

  /** Delivery: notices are handed over in the order they were drafted, each in one
      non-empty batch, and none is held back while the agent is idle. */
  lemma NoticesInOrder(es: seq<Event>)
    ensures var d := Run(Boot(), es);
      && Flat(d.deliveries) + d.pending == d.produced
      && (forall x :: x in d.deliveries ==> x.batch != [])
      && (!d.agentRunning ==> Flat(d.deliveries) == d.produced)
  {
    Reached(es);
  }

  /** Waiters: each is released once, by its own timeout or signal or by the end of
      its task, and none waits for a task whose log is flushed. */
  lemma WaitersSettleOnce(es: seq<Event>, w: nat)
    requires w < |Run(Boot(), es).asked|
    ensures var d := Run(Boot(), es);
      && Once(d.freed) && d.asked[w] < |d.tasks|
      && (Has(d.freed, w) <==> w !in d.tasks[d.asked[w]].waiters)
      && (d.tasks[d.asked[w]].logEnded ==> Has(d.freed, w))
      && (Has(d.freed, w) ==> w !in d.timers && w !in d.listeners)
  {
    Reached(es);
    var d := Run(Boot(), es);
    var t := d.asked[w];
    assert d.tasks[t] in d.tasks && WaitFor(d.tasks[t].waiters, t, d.asked, d.freed);
  }

  /** At rest: when every task is registered and flushed and the agent is idle,
      every call and every waiter has been settled, and the agent has been handed
      one notice for exactly the background tasks nobody killed. */
  lemma NothingIsLeftOver(es: seq<Event>)
    requires var d := Run(Boot(), es); !d.agentRunning && forall x :: x in d.tasks ==> x.registered && x.logEnded
    ensures var d := Run(Boot(), es);
      && Once(d.answers) && Once(d.freed) && Once(Flat(d.deliveries))
      && (forall t: nat :: t < |d.tasks| ==> (Has(d.answers, t) <==> d.tasks[t].foreground))
      && (forall t: nat :: t < |d.tasks| ==> (Has(Flat(d.deliveries), t) <==> Tells(d.tasks[t])))
      && (forall w: nat :: w < |d.asked| ==> Has(d.freed, w))
  {
    var d := Run(Boot(), es);
    Reached(es);
    NoticesInOrder(es);
    forall t: nat | t < |d.tasks| ensures Has(d.answers, t) <==> d.tasks[t].foreground {
      assert TaskOk(d.tasks[t]);
    }
    forall t: nat | t < |d.tasks| ensures Has(d.produced, t) <==> Tells(d.tasks[t]) {
      assert d.tasks[t] in d.tasks;
    }
    forall w: nat | w < |d.asked| ensures Has(d.freed, w) {
      WaitersSettleOnce(es, w);
      assert d.tasks[d.asked[w]] in d.tasks;
    }
  }

  /** How one task and the answers may move in a step. */
  predicate Moves(x: Task, y: Task, t: nat, e: Event, answers: seq<Note<Outcome>>, answers': seq<Note<Outcome>>) {
    && (y.completed ==> (x.completed && y.exitCode == x.exitCode) || e == Close(t, y.exitCode))
    && (x.signalAborted ==> y.signalAborted) && y.foreground == x.foreground && (x.registered ==> y.registered)
    && (answers' == answers || (|answers'| == |answers| + 1 && answers' == answers + [Note(t, answers'[|answers|].what)]
        && (x.signalAborted ==> answers'[|answers|].what in {Promoted, Aborted})))
  }

  lemma SettlingMoves(d: Desk, e: Event)
    requires (e.Register? || e.LogEnd? || e.Promote? || e.AutoBackground?) && e.task < |d.tasks|
    ensures var d', t := TaskStep(d, e), e.task;
      |d'.tasks| == |d.tasks| && d'.tasks == d.tasks[t := d'.tasks[t]] && Moves(d.tasks[t], d'.tasks[t], t, e, d.answers, d'.answers)
  {
  }

  lemma TaskStepMoves(d: Desk, e: Event)
    requires OfTask(e) && e.task < |d.tasks|
    ensures var d', t := TaskStep(d, e), e.task;
      |d'.tasks| == |d.tasks| && d'.tasks == d.tasks[t := d'.tasks[t]] && Moves(d.tasks[t], d'.tasks[t], t, e, d.answers, d'.answers)
  {
    if e.Register? || e.LogEnd? || e.Promote? || e.AutoBackground? {
      SettlingMoves(d, e);
    }
  }

  /** A task exits by an event of its own process alone. */
  lemma StepExits(d: Desk, e: Event, t: nat)
    requires t < |Step(d, e).tasks| && Step(d, e).tasks[t].completed
    ensures (t < |d.tasks| && d.tasks[t].completed && d.tasks[t].exitCode == Step(d, e).tasks[t].exitCode)
         || e == Close(t, Step(d, e).tasks[t].exitCode)
  {
    if OfTask(e) && e.task < |d.tasks| {
      TaskStepMoves(d, e);
    }
  }

  lemma {:induction false} RunExits(d: Desk, es: seq<Event>, t: nat)
    requires t < |Run(d, es).tasks| && Run(d, es).tasks[t].completed
    ensures (t < |d.tasks| && d.tasks[t].completed && d.tasks[t].exitCode == Run(d, es).tasks[t].exitCode)
         || Close(t, Run(d, es).tasks[t].exitCode) in es
    decreases |es|
  {
    if es != [] {
      RunExits(Step(d, es[0]), es[1..], t);
      if t < |Step(d, es[0]).tasks| && Step(d, es[0]).tasks[t].completed {
        StepExits(d, es[0], t);
      }
    }
  }

  /** No result is invented: a call that answers an exit code and a notice that
      carries one report how the process of that very task ended. */
  lemma ReportsOwnExit(es: seq<Event>, t: nat, code: Option<int>)
    requires Note(t, Exited(code)) in Run(Boot(), es).answers || Note(t, code) in Run(Boot(), es).produced
    ensures Close(t, code) in es
  {
    Reached(es);
    var d := Run(Boot(), es);
    assert t < |d.tasks| && d.tasks[t] in d.tasks && TaskOk(d.tasks[t]);
    assert d.tasks[t].completed && d.tasks[t].exitCode == code;
    RunExits(Boot(), es, t);
  }

  /** The call was told to stop while in charge, and has answered nothing else since. */
  predicate StopHeld(d: Desk, t: nat) {
    && t < |d.tasks| && d.tasks[t].signalAborted && d.tasks[t].foreground && d.tasks[t].registered
    && forall n :: n in d.answers && n.who == t ==> n.what == Promoted || n.what == Aborted
  }

  lemma StopIsHeld(d: Desk, e: Event, t: nat)
    requires StopHeld(d, t)
    ensures StopHeld(Step(d, e), t)
  {
    if OfTask(e) && e.task < |d.tasks| {
      TaskStepMoves(d, e);
    }
  }

  lemma {:induction false} RunHoldsStop(d: Desk, es: seq<Event>, t: nat)
    requires StopHeld(d, t)
    ensures StopHeld(Run(d, es), t)
    decreases |es|
  {
    if es != [] {
      StopIsHeld(d, es[0], t);
      RunHoldsStop(Step(d, es[0]), es[1..], t);
    }
  }

  /** A promotion, by request or by a timer still armed, comes before the exit. */
  predicate PromotionFirst(d: Desk, es: seq<Event>, t: nat)
    requires t < |d.tasks|
    decreases |es|
  {
    es != [] && !(es[0].Close? && es[0].task == t)
    && (es[0] == Promote(t) || (es[0] == AutoBackground(t) && d.tasks[t].autoArmed)
        || (t < |Step(d, es[0]).tasks| && PromotionFirst(Step(d, es[0]), es[1..], t)))
  }

  predicate Charge(x: Task) {
    x.registered && x.settler && !x.completed && !x.backgrounded
  }

  /** The call is in charge of a running process in the foreground. */
  predicate InCharge(d: Desk, t: nat) {
    t < |d.tasks| && Charge(d.tasks[t])
  }

  /** How an event of its own moves a task between foreground and background. */
  predicate Places(x: Task, y: Task, e: Event) {
    && (x.completed || x.backgrounded ==> y.backgrounded == x.backgrounded && (y.completed || y.backgrounded))
    && (Charge(x) ==>
          if e.Close? then y.completed && !y.backgrounded
          else if e.Promote? || (e.AutoBackground? && x.autoArmed) then y.backgrounded
          else Charge(y))
  }

  lemma RegisterPlaces(d: Desk, t: nat)
    requires t < |d.tasks|
    ensures |DoRegister(d, t).tasks| == |d.tasks| && Places(d.tasks[t], DoRegister(d, t).tasks[t], Register(t))
  {
  }

  lemma LogEndPlaces(d: Desk, t: nat)
    requires t < |d.tasks|
    ensures |DoLogEnd(d, t).tasks| == |d.tasks| && Places(d.tasks[t], DoLogEnd(d, t).tasks[t], LogEnd(t))
  {
  }

  lemma PromotePlaces(d: Desk, t: nat)
    requires t < |d.tasks|
    ensures |DoPromote(d, t).tasks| == |d.tasks| && Places(d.tasks[t], DoPromote(d, t).tasks[t], Promote(t))
  {
  }

  lemma AutoBackgroundPlaces(d: Desk, t: nat)
    requires t < |d.tasks|
    ensures |DoAutoBackground(d, t).tasks| == |d.tasks| && Places(d.tasks[t], DoAutoBackground(d, t).tasks[t], AutoBackground(t))
  {
    if d.tasks[t].autoArmed {
      PromotePlaces(Put(d, t, d.tasks[t].(autoArmed := false)), t);
    }
  }

  lemma TaskStepPlaces(d: Desk, e: Event)
    requires OfTask(e) && e.task < |d.tasks|
    ensures |TaskStep(d, e).tasks| == |d.tasks| && Places(d.tasks[e.task], TaskStep(d, e).tasks[e.task], e)
  {
    match e
    case Register(t) => RegisterPlaces(d, t);
    case LogEnd(t) => LogEndPlaces(d, t);
    case Promote(t) => PromotePlaces(d, t);
    case AutoBackground(t) => AutoBackgroundPlaces(d, t);
    case _ =>
  }

  /** After the exit, and once in the background, a task stays where it is. */
  lemma StepPlaced(d: Desk, e: Event, t: nat)
    requires t < |d.tasks| && (d.tasks[t].completed || d.tasks[t].backgrounded)
    ensures var d' := Step(d, e);
      && t < |d'.tasks| && d'.tasks[t].backgrounded == d.tasks[t].backgrounded
      && (d'.tasks[t].completed || d'.tasks[t].backgrounded)
  {
    if OfTask(e) && e.task < |d.tasks| {
      TaskStepMoves(d, e);
      TaskStepPlaces(d, e);
    }
  }

  lemma {:induction false} RunPlaced(d: Desk, es: seq<Event>, t: nat)
    requires t < |d.tasks| && (d.tasks[t].completed || d.tasks[t].backgrounded)
    ensures t < |Run(d, es).tasks| && Run(d, es).tasks[t].backgrounded == d.tasks[t].backgrounded
    decreases |es|
  {
    if es != [] {
      StepPlaced(d, es[0], t);
      RunPlaced(Step(d, es[0]), es[1..], t);
    }
  }

  lemma StepInCharge(d: Desk, e: Event, t: nat)
    requires InCharge(d, t)
    ensures var d' := Step(d, e);
      t < |d'.tasks| &&
      if e.Close? && e.task == t then d'.tasks[t].completed && !d'.tasks[t].backgrounded
      else if e == Promote(t) || (e == AutoBackground(t) && d.tasks[t].autoArmed) then d'.tasks[t].backgrounded
      else InCharge(d', t)
  {
    if OfTask(e) && e.task < |d.tasks| {
      TaskStepMoves(d, e);
      TaskStepPlaces(d, e);
    }
  }

  /** A call goes to the background exactly when a promotion comes before the exit. */
  lemma {:induction false} BackgroundedIff(d: Desk, es: seq<Event>, t: nat)
    requires InCharge(d, t)
    ensures t < |Run(d, es).tasks| && (Run(d, es).tasks[t].backgrounded <==> PromotionFirst(d, es, t))
    decreases |es|
  {
    if es != [] {
      StepInCharge(d, es[0], t);
      var d' := Step(d, es[0]);
      if InCharge(d', t) {
        BackgroundedIff(d', es[1..], t);
      } else {
        RunPlaced(d', es[1..], t);
      }
    }
  }

  /** Once the signal of a call in charge has fired, the call rejects as aborted if
      and only if no promotion comes before the exit, however the process ends. */
  lemma AbortedUnlessPromoted(d: Desk, es: seq<Event>, t: nat, n: Note<Outcome>)
    requires Inv(d) && InCharge(d, t) && d.tasks[t].signalAborted
    requires n in Run(d, es).answers && n.who == t
    ensures n.what == if PromotionFirst(d, es, t) then Promoted else Aborted
  {
    assert d.tasks[t] in d.tasks && TaskOk(d.tasks[t]);
    forall m | m in d.answers ensures m.who != t {
      assert Answers(d.tasks[m.who]);
    }
    RunHoldsStop(d, es, t);
    RunKeeps(d, es);
    BackgroundedIff(d, es, t);
  }

  /** What a step hands over: at most one batch, and a silent post exactly when it
      is the aborted settle of the agent that finds something pending. */
  predicate Hands(d: Desk, e: Event, d': Desk) {
    d'.deliveries == d.deliveries
    || (|d'.deliveries| == |d.deliveries| + 1 && d.deliveries <= d'.deliveries
        && var x := d'.deliveries[|d.deliveries|]; (x.Posted? && !x.wake <==> e == AgentSettled(true)))
  }

  lemma StepHands(d: Desk, e: Event)
    ensures Hands(d, e, Step(d, e))
  {
    if e.LogEnd? && e.task < |d.tasks| {
      LogEndHands(d, e.task);
    }
  }

  lemma LogEndHands(d: Desk, t: nat)
    requires t < |d.tasks|
    ensures Hands(d, LogEnd(t), DoLogEnd(d, t))
  {
  }

  lemma {:induction false} RunHands(d: Desk, es: seq<Event>, j: nat) returns (k: nat)
    requires |d.deliveries| <= j < |Run(d, es).deliveries|
    ensures d.deliveries <= Run(d, es).deliveries
    ensures k < |es| && |Run(d, es[..k]).deliveries| == j && |Run(d, es[..k + 1]).deliveries| == j + 1
    ensures var x := Run(d, es).deliveries[j]; x.Posted? && !x.wake <==> es[k] == AgentSettled(true)
    decreases |es|
  {
    var d' := Step(d, es[0]);
    StepHands(d, es[0]);
    DeliveriesGrow(d', es[1..]);
    if |d'.deliveries| <= j {
      var k' := RunHands(d', es[1..], j);
      k := k' + 1;
      assert es[..k][0] == es[0] && es[..k][1..] == es[1..][..k'];
      assert es[..k + 1][0] == es[0] && es[..k + 1][1..] == es[1..][..k' + 1];
    } else {
      k := 0;
      assert es[..0] == [] && es[..1] == [es[0]] && [es[0]][1..] == [];
    }
  }

  lemma {:induction false} DeliveriesGrow(d: Desk, es: seq<Event>)
    ensures d.deliveries <= Run(d, es).deliveries
    decreases |es|
  {
    if es != [] {
      StepHands(d, es[0]);
      DeliveriesGrow(Step(d, es[0]), es[1..]);
    }
  }

  /** Notices posted to an idle agent wake it: the j-th batch was handed over by one
      event of the run, and it is a post that stays silent if and only if that
      very event is the settling of an aborted agent. */
  lemma PostsWakeUnlessAborted(es: seq<Event>, j: nat) returns (k: nat)
    requires j < |Run(Boot(), es).deliveries|
    ensures k < |es| && |Run(Boot(), es[..k]).deliveries| == j && |Run(Boot(), es[..k + 1]).deliveries| == j + 1
    ensures var x := Run(Boot(), es).deliveries[j]; x.Posted? && !x.wake <==> es[k] == AgentSettled(true)
  {
    k := RunHands(Boot(), es, j);
  }

  lemma {:induction false} RunSnoc(d: Desk, es: seq<Event>, e: Event)
    ensures Run(d, es + [e]) == Step(Run(d, es), e)
    decreases |es|
  {
    if es == [] {
      assert es + [e] == [e] && [e][1..] == [];
    } else {
      assert (es + [e])[1..] == es[1..] + [e] && (es + [e])[0] == es[0];
      RunSnoc(Step(d, es[0]), es[1..], e);
    }
  }

  lemma RunThree(d: Desk, a: Event, b: Event, c: Event)
    ensures Run(d, [a, b, c]) == Step(Step(Step(d, a), b), c)
  {
    RunSnoc(d, [], a);
    RunSnoc(d, [a], b);
    RunSnoc(d, [a, b], c);
    assert [] + [a] == [a] && [a] + [b] == [a, b] && [a, b] + [c] == [a, b, c];
  }

  /** A run that shows the race: the signal fires, the timer that sends a call to
      the background comes before the exit, and the call succeeds as promoted; its
      end then wakes the agent. */
  lemma PromotionOvertakesAbort(code: Option<int>)
    ensures var es := [Launch(true, false, true), Register(0), SignalAbort(0)];
      var d := Run(Run(Boot(), es), [AutoBackground(0), Close(0, code), LogEnd(0)]);
      d.answers == [Note(0, Promoted)] && d.deliveries == [Posted([Note(0, code)], true)]
  {
    var es := [Launch(true, false, true), Register(0), SignalAbort(0)];
    RunThree(Boot(), es[0], es[1], es[2]);
    var d := Run(Boot(), es);
    assert |d.tasks| == 1 && d.tasks[0].settler && d.tasks[0].autoArmed && !d.tasks[0].completed && !d.tasks[0].backgrounded;
    assert d.answers == [] && d.deliveries == [] && !d.agentRunning && !d.tasks[0].explicitlyKilled && !d.tasks[0].logEnded;
    RunThree(d, AutoBackground(0), Close(0, code), LogEnd(0));
    var p := Step(d, AutoBackground(0));
    assert p.answers == [Note(0, Promoted)] && p.tasks[0].backgrounded && !p.tasks[0].settler;
  }

  // ---------------------------------------------------------------- the extension itself

  /** The three parts of a flush, put together. */
  lemma LogEndIs(d: Desk, t: nat, x: Task, told: Desk, d': Desk)
    requires t < |d.tasks| && x == d.tasks[t] && x.completed && !x.logEnded && told == Told(d, t, x)
    requires d' == told.(tasks := d'.tasks, answers := d'.answers, timers := d'.timers, listeners := d'.listeners, freed := d'.freed)
    requires d'.tasks == d.tasks[t := x.(settler := false)][t := x.(settler := false, logEnded := true, waiters := [])]
    requires d'.answers == if x.settler then d.answers + [Note(t, OutcomeOf(x))] else d.answers
    requires d'.timers == d.timers - (set w | w in x.waiters) && d'.listeners == d.listeners - (set w | w in x.waiters)
    requires d'.freed == d.freed + Notes(x.waiters)
    ensures d' == DoLogEnd(d, t)
  {
    assert d'.tasks == d.tasks[t := x.(logEnded := true, settler := false, waiters := [])];
  }

  class BashExtension {
    var tasks: seq<Task>
    var agentRunning: bool
    var pending: seq<Notice>
    var timers: set<nat>
    var listeners: set<nat>
    ghost var asked: seq<nat>
    ghost var freed: seq<Note<bool>>
    ghost var answers: seq<Note<Outcome>>
    ghost var produced: seq<Notice>
    ghost var deliveries: seq<Delivery>

    ghost function View(): Desk
      reads this
    {
      Desk(tasks, agentRunning, pending, timers, listeners, asked, freed, answers, produced, deliveries)
    }

    constructor ()
      ensures View() == Boot()
    {
      tasks, agentRunning, pending, timers, listeners := [], false, [], {}, {};
      asked, freed, answers, produced, deliveries := [], [], [], [], [];
    }

    method StartTask(foreground: bool, timed: bool, auto: bool) returns (t: nat)
      modifies this`tasks
      ensures t == |old(tasks)| && View() == Step(old(View()), Launch(foreground, timed, auto))
    {
      t := |tasks|;
      tasks := tasks + [Launched(foreground, timed, auto)];
    }

    method Settle(t: nat)
      requires t < |tasks|
      modifies this`tasks, this`answers
      ensures View() == Settled(old(View()), t)
    {
      answers := answers + [Note(t, OutcomeOf(tasks[t]))];
      tasks := tasks[t := tasks[t].(settler := false)];
    }

    /** The call installs its settler; the process may have exited meanwhile. */
    method TakeCharge(t: nat)
      requires t < |tasks| && tasks[t].foreground && !tasks[t].registered
      modifies this`tasks, this`answers
      ensures View() == DoRegister(old(View()), t)
    {
      var x := tasks[t];
      tasks := tasks[t := x.(registered := true, settler := true, killSent := x.killSent || x.signalAborted)];
      if x.completed {
        Settle(t);
      }
    }

    method RegisterCall(t: nat)
      requires t < |tasks|
      modifies this`tasks, this`answers
      ensures View() == DoRegister(old(View()), t)
    {
      if tasks[t].registered {
      } else if tasks[t].foreground {
        TakeCharge(t);
      } else {
        tasks := tasks[t := tasks[t].(registered := true)];
      }
    }

    method FinishTask(t: nat, code: Option<int>)
      requires t < |tasks|
      modifies this`tasks
      ensures View() == DoClose(old(View()), t, code)
    {
      if !tasks[t].completed {
        tasks := tasks[t := tasks[t].(completed := true, exitCode := code, timeoutArmed := false, autoArmed := false)];
      }
    }

    method NotifyBashCompletion(n: Notice)
      modifies this`produced, this`pending, this`deliveries
      ensures View() == Notified(old(View()), n)
    {
      produced := produced + [n];
      if agentRunning {
        pending := pending + [n];
      } else {
        deliveries := deliveries + [Posted([n], true)];
      }
    }

    method ReleaseWaiters(ws: seq<nat>)
      modifies this`timers, this`listeners, this`freed
      ensures timers == old(timers) - (set w | w in ws) && listeners == old(listeners) - (set w | w in ws)
      ensures freed == old(freed) + Notes(ws)
    {
      for i := 0 to |ws|
        invariant timers == old(timers) - (set w | w in ws[..i]) && listeners == old(listeners) - (set w | w in ws[..i])
        invariant freed == old(freed) + Notes(ws[..i])
      {
        timers, listeners, freed := timers - {ws[i]}, listeners - {ws[i]}, freed + [Note(ws[i], true)];
        assert ws[..i + 1] == ws[..i] + [ws[i]];
      }
      assert ws[..|ws|] == ws;
    }

    method TellAgent(t: nat)
      requires t < |tasks|
      modifies this`produced, this`pending, this`deliveries
      ensures View() == Told(old(View()), t, tasks[t])
    {
      if tasks[t].backgrounded && !tasks[t].explicitlyKilled {
        NotifyBashCompletion(Note(t, tasks[t].exitCode));
      }
    }

    method AnswerCall(t: nat)
      requires t < |tasks|
      modifies this`tasks, this`answers
      ensures var x := old(tasks)[t];
        && tasks == old(tasks)[t := x.(settler := false)]
        && answers == if x.settler then old(answers) + [Note(t, OutcomeOf(x))] else old(answers)
    {
      if tasks[t].settler {
        Settle(t);
      }
    }

    /** The flush callback: notice, call, waiters. */
    method OnLogEnd(t: nat)
      requires t < |tasks|
      modifies this
      ensures View() == DoLogEnd(old(View()), t)
    {
      var x := tasks[t];
      if x.completed && !x.logEnded {
        TellAgent(t);
        ghost var told := View();
        AnswerCall(t);
        ReleaseWaiters(x.waiters);
        tasks := tasks[t := tasks[t].(logEnded := true, waiters := [])];
        LogEndIs(old(View()), t, x, told, View());
      }
    }

    method PromoteTask(t: nat)
      requires t < |tasks|
      modifies this`tasks, this`answers
      ensures View() == DoPromote(old(View()), t)
    {
      var x := tasks[t];
      if x.settler && !x.completed && !x.backgrounded {
        tasks := tasks[t := x.(autoArmed := false, backgrounded := true)];
        Settle(t);
      }
    }

    method KillTask(t: nat) returns (killed: bool)
      requires t < |tasks|
      modifies this`tasks
      ensures View() == DoKill(old(View()), t) && killed == (old(tasks)[t].registered && !old(tasks)[t].completed)
    {
      killed := tasks[t].registered && !tasks[t].completed;
      if killed {
        tasks := tasks[t := tasks[t].(explicitlyKilled := true, killSent := true)];
      }
    }

    method SessionShutdown()
      modifies this`tasks
      ensures View() == DoShutdown(old(View()))
    {
      for i := 0 to |tasks|
        invariant |tasks| == |old(tasks)|
        invariant forall j :: 0 <= j < i ==> tasks[j] == ShutDown(old(tasks)[j])
        invariant forall j :: i <= j < |tasks| ==> tasks[j] == old(tasks)[j]
      {
        if tasks[i].registered && !tasks[i].completed {
          tasks := tasks[i := tasks[i].(autoArmed := false, explicitlyKilled := true, killSent := true)];
        }
      }
      assert tasks == DoShutdown(old(View())).tasks;
    }

    method Release(w: nat, ok: bool)
      modifies this`timers, this`listeners, this`freed
      ensures View() == Freed(old(View()), w, ok)
    {
      timers, listeners, freed := timers - {w}, listeners - {w}, freed + [Note(w, ok)];
    }

    /** `w` is the waiter's own name, one not used before. */
    method WaitForCompletion(t: nat, w: nat, aborted: bool, signal: bool, timed: bool)
      requires t < |tasks| && w == |asked|
      modifies this`tasks, this`timers, this`listeners, this`asked, this`freed
      ensures View() == DoWait(old(View()), t, aborted, signal, timed)
    {
      var x := tasks[t];
      if !x.registered {
        return;
      }
      asked := asked + [t];
      if x.completed {
        Release(w, true);
      } else if aborted {
        Release(w, false);
      } else {
        tasks := tasks[t := x.(waiters := x.waiters + [w])];
        if timed {
          timers := timers + {w};
        }
        if signal {
          listeners := listeners + {w};
        }
      }
    }

    method AppendBashCompletions(goOn: bool, completed: bool) returns (entries: seq<Notice>)
      modifies this`pending, this`deliveries
      ensures View() == Step(old(View()), Boundary(goOn, completed)) && entries == old(pending)
    {
      entries := pending;
      if pending != [] {
        pending := [];
        deliveries := deliveries + [Appended(entries, goOn || completed)];
      }
    }

    method OnAgentSettled(aborted: bool)
      modifies this`agentRunning, this`pending, this`deliveries
      ensures View() == Step(old(View()), AgentSettled(aborted))
    {
      agentRunning := false;
      var late := pending;
      pending := [];
      if late != [] {
        deliveries := deliveries + [Posted(late, !aborted)];
      }
    }
  }
}
