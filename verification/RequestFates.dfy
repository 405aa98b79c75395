/** Requests read off from the events: how each begins, which event settles it and
    with what, and that both directions of the socket carry what was sent, in order.
 */
module RequestFates {
  import opened RequestProtocol

  // ---------------------------------------------------------------- how a request begins

  /** A request is refused without a registration, rejected when its signal has fired
      or its frame is too large, and otherwise pending with its frame on the way. */
  lemma RequestBegins(es: seq<Event>, id: nat, req: string, signal: bool, aborted: bool, fits: bool)
    requires AllPossible(Boot(), es) && id !in Run(Boot(), es).asked
    ensures var s := Run(Boot(), es);
      var t := Step(s, Request(id, req, signal, aborted, fits));
      if !s.online then id in t.outcome && t.outcome[id] == Rejected(Offline)
      else if signal && aborted then id in t.outcome && t.outcome[id] == Rejected(Aborted)
      else if !fits then id in t.outcome && t.outcome[id] == Rejected(TooLarge)
      else id in t.pending && id !in t.outcome && (id in t.listeners <==> signal)
  {
    RunKeeps(Boot(), es);
  }

  // ---------------------------------------------------------------- how a request ends

  /** The outcome with which an event settles a pending request. */
  function Ends(s: System, e: Event, id: nat): Option<Outcome> {
    match e
    case Timeout(x) => if x == id then Some(Rejected(TimedOut)) else None
    case Abort(x) => if x == id && id in s.listeners then Some(Rejected(Aborted)) else None
    case DaemonReads =>
      if s.toDaemon != [] && s.toDaemon[0].id == id
      then Some(if s.toDaemon[0].reply.ok then Resolved(s.toDaemon[0].reply.value) else Rejected(PiFailed))
      else None
    case Disconnect => Some(Rejected(Unavailable))
    case _ => None
  }

  /** The outcome of the first event that settles it. */
  function Fate(s: System, es: seq<Event>, id: nat): Option<Outcome>
    decreases |es|
  {
    if es == [] then None else if Ends(s, es[0], id).Some? then Ends(s, es[0], id) else Fate(Step(s, es[0]), es[1..], id)
  }

  lemma StepFate(s: System, e: Event, id: nat)
    requires Inv(s) && Possible(s, e) && id in s.pending
    ensures match Ends(s, e, id)
      case Some(o) => id in Step(s, e).outcome && Step(s, e).outcome[id] == o
      case None => id in Step(s, e).pending
  {
    assert id in s.asked && id !in s.outcome;
  }

  lemma {:induction false} RunFate(s: System, es: seq<Event>, id: nat)
    requires Inv(s) && AllPossible(s, es) && id in s.pending
    ensures match Fate(s, es, id)
      case Some(o) => id in Run(s, es).outcome && Run(s, es).outcome[id] == o
      case None => id in Run(s, es).pending
    decreases |es|
  {
    if es != [] {
      StepKeeps(s, es[0]);
      StepFate(s, es[0], id);
      if Ends(s, es[0], id).Some? {
        SettledForGood(Step(s, es[0]), es[1..], id);
      } else {
        RunFate(Step(s, es[0]), es[1..], id);
      }
    }
  }

  /** The fate of a request: in every run a pending request stays pending until the
      first of its timeout, its signal, the reading of its response and the
      disconnect, and is settled as that one says. */
  lemma RequestFate(es: seq<Event>, more: seq<Event>, id: nat)
    requires AllPossible(Boot(), es) && AllPossible(Run(Boot(), es), more) && id in Run(Boot(), es).pending
    ensures var s, t := Run(Boot(), es), Run(Run(Boot(), es), more);
      match Fate(s, more, id)
      case Some(o) => id in t.outcome && t.outcome[id] == o
      case None => id in t.pending && id !in t.outcome
  {
    RunKeeps(Boot(), es);
    RunFate(Run(Boot(), es), more, id);
    RunKeeps(Run(Boot(), es), more);
  }

  /** A signal that has not fired is listened to until it fires, also after a response. */
  lemma ListensUntilAbort(s: System, e: Event, id: nat)
    requires Possible(s, e) && Inv(s) && id in s.asked
    ensures id in Step(s, e).listeners <==> id in s.listeners && e != Abort(id)
  {
  }

  // ---------------------------------------------------------------- the socket

  /** The frames a step sends to Pi. */
  function Sends(s: System, e: Event): seq<Frame> {
    if !s.online then []
    else match e
      case Request(id, req, signal, aborted, fits) => if signal && aborted then [Cancel(id)] else if fits then [Invoke(id, req)] else []
      case Abort(id) => if id in s.listeners then [Cancel(id)] else []
      case _ => []
  }

  /** The frame a step has Pi read. */
  function Reads(s: System, e: Event): seq<Frame> {
    if e.PiReads? && s.toPi != [] then [s.toPi[0]] else []
  }

  function Replies(s: System, e: Event): seq<Response> {
    if e.PiFinishes? && s.online && e.id in s.working && e.reply.Some? then [Response(e.id, e.reply.value)] else []
  }

  function Takes(s: System, e: Event): seq<Response> {
    if e.DaemonReads? && s.toDaemon != [] then [s.toDaemon[0]] else []
  }

  function SentIn(s: System, es: seq<Event>): seq<Frame>
    decreases |es|
  {
    if es == [] then [] else Sends(s, es[0]) + SentIn(Step(s, es[0]), es[1..])
  }

  function ReadIn(s: System, es: seq<Event>): seq<Frame>
    decreases |es|
  {
    if es == [] then [] else Reads(s, es[0]) + ReadIn(Step(s, es[0]), es[1..])
  }

  function RepliedIn(s: System, es: seq<Event>): seq<Response>
    decreases |es|
  {
    if es == [] then [] else Replies(s, es[0]) + RepliedIn(Step(s, es[0]), es[1..])
  }

  function TakenIn(s: System, es: seq<Event>): seq<Response>
    decreases |es|
  {
    if es == [] then [] else Takes(s, es[0]) + TakenIn(Step(s, es[0]), es[1..])
  }

  lemma CarriesToPi(s: System, e: Event)
    requires e != Disconnect
    ensures s.toPi + Sends(s, e) == Reads(s, e) + Step(s, e).toPi
  {
    if e.PiReads? && s.toPi != [] {
      assert s.toPi == [s.toPi[0]] + s.toPi[1..];
    }
  }

  lemma CarriesToDaemon(s: System, e: Event)
    requires e != Disconnect
    ensures s.toDaemon + Replies(s, e) == Takes(s, e) + Step(s, e).toDaemon
  {
    if e.DaemonReads? && s.toDaemon != [] {
      assert s.toDaemon == [s.toDaemon[0]] + s.toDaemon[1..];
    }
  }

  lemma Chain<T>(a: seq<T>, b: seq<T>, c: seq<T>, d: seq<T>, b': seq<T>, c': seq<T>, z: seq<T>)
    requires a + b == c + d && d + b' == c' + z
    ensures a + (b + b') == (c + c') + z
  {
    assert a + (b + b') == (a + b) + b';
    assert (c + d) + b' == c + (d + b');
    assert c + (c' + z) == (c + c') + z;
  }

  /** The socket is a pair of queues: until the disconnect, what was sent to Pi is what
      Pi has read followed by what is on its way, and so for the responses. */
  lemma {:induction false} SocketInOrder(s: System, es: seq<Event>)
    requires Disconnect !in es
    ensures s.toPi + SentIn(s, es) == ReadIn(s, es) + Run(s, es).toPi
    ensures s.toDaemon + RepliedIn(s, es) == TakenIn(s, es) + Run(s, es).toDaemon
    decreases |es|
  {
    if es != [] {
      var t := Step(s, es[0]);
      assert es[0] in es;
      CarriesToPi(s, es[0]);
      CarriesToDaemon(s, es[0]);
      SocketInOrder(t, es[1..]);
      Chain(s.toPi, Sends(s, es[0]), Reads(s, es[0]), t.toPi, SentIn(t, es[1..]), ReadIn(t, es[1..]), Run(s, es).toPi);
      Chain(s.toDaemon, Replies(s, es[0]), Takes(s, es[0]), t.toDaemon, RepliedIn(t, es[1..]), TakenIn(t, es[1..]), Run(s, es).toDaemon);
    }
  }

  /** What Pi does with a frame: an invocation is begun, a cancellation aborts the work
      it finds, a disconnect all work there is; work goes on until Pi finishes it. */
  lemma PiServes(s: System, e: Event, id: nat)
    ensures var t := Step(s, e);
      && (id in t.working <==> (id in s.working && !(e.PiFinishes? && e.id == id)) || exists req :: Reads(s, e) == [Invoke(id, req)])
      && ((Reads(s, e) == [Cancel(id)] || e.Disconnect?) && id in s.working ==> id in t.aborted)
  {
    if e.PiReads? && s.toPi != [] {
      FrameServes(s, id);
    }
  }

  lemma FrameServes(s: System, id: nat)
    requires s.toPi != []
    ensures id in DoPiReads(s).working <==> id in s.working || (s.toPi[0].Invoke? && s.toPi[0].id == id)
    ensures (s.toPi[0].Invoke? && s.toPi[0].id == id) <==> exists req :: [s.toPi[0]] == [Invoke(id, req)]
    ensures s.toPi[0] == Cancel(id) && id in s.working ==> id in DoPiReads(s).aborted
  {
    var f := s.toPi[0];
    if f.Invoke? {
      assert [f] == [Invoke(f.id, f.req)];
    }
    assert forall g: Frame :: [f] == [g] ==> f == g;
  }
}
