/** The request protocol between the resident daemon and a registered Pi: the
    daemon invokes over a socket, Pi works and responds, and responses, timeouts,
    aborts, frames too large to write and disconnects race to settle a request.

    The two directions of the socket are queues.  `asked`, `started`, `produced`
    and `cancelled` are an observer's notes: what was asked under each id, which
    ids Pi has begun to work on, what it replied to which request, and which
    cancellations it has read.
 */
module RequestProtocol {

  datatype Option<T> = None | Some(value: T)

  datatype Frame = Invoke(id: nat, req: string) | Cancel(id: nat)
  datatype Reply = Reply(ok: bool, value: string)
  datatype Response = Response(id: nat, reply: Reply)
  datatype Work = Work(req: string, reply: Reply)

  datatype Reason = Offline | TimedOut | Aborted | TooLarge | PiFailed | Unavailable
  datatype Outcome = Resolved(value: string) | Rejected(why: Reason)

  datatype System = System(
    online: bool, pending: set<nat>, listeners: set<nat>, outcome: map<nat, Outcome>,
    toPi: seq<Frame>, toDaemon: seq<Response>, working: map<nat, string>, aborted: set<nat>,
    asked: map<nat, string>, started: set<nat>, produced: map<nat, Work>, cancelled: set<nat>)

  datatype Event =
    | Request(id: nat, req: string, signal: bool, aborted: bool, fits: bool)
    | Timeout(id: nat)
    | Abort(id: nat)
    | PiReads
    | PiFinishes(id: nat, reply: Option<Reply>)
    | DaemonReads
    | Disconnect

  /** A promise keeps its first settlement. */
  function Settle(s: System, id: nat, o: Outcome): System {
    if id in s.outcome then s else s.(outcome := s.outcome[id := o])
  }

  /** Without a registration a request is refused; one aborted beforehand sends
      only its cancellation; a frame too large is rejected. */
  function DoRequest(s: System, id: nat, req: string, signal: bool, aborted: bool, fits: bool): System {
    var t := s.(asked := s.asked[id := req]);
    if !s.online then Settle(t, id, Rejected(Offline))
    else if signal && aborted then Settle(t.(toPi := s.toPi + [Cancel(id)]), id, Rejected(Aborted))
    else if !fits then Settle(t, id, Rejected(TooLarge))
    else t.(pending := s.pending + {id}, listeners := if signal then s.listeners + {id} else s.listeners, toPi := s.toPi + [Invoke(id, req)])
  }

  function DoTimeout(s: System, id: nat): System {
    if id !in s.pending then s else Settle(s.(pending := s.pending - {id}), id, Rejected(TimedOut))
  }

  /** The abort listener stays after a response; then it still sends a cancellation. */
  function DoAbort(s: System, id: nat): System {
    if id !in s.listeners then s
    else Settle(s.(listeners := s.listeners - {id}, pending := s.pending - {id}, toPi := if s.online then s.toPi + [Cancel(id)] else s.toPi),
                id, Rejected(Aborted))
  }

  function DoPiReads(s: System): System {
    if s.toPi == [] then s
    else
      var t := s.(toPi := s.toPi[1..]);
      match s.toPi[0]
      case Invoke(id, req) => t.(working := s.working[id := req], started := s.started + {id})
      case Cancel(id) => t.(aborted := if id in s.working then s.aborted + {id} else s.aborted, cancelled := s.cancelled + {id})
  }

  function DoPiFinishes(s: System, id: nat, reply: Option<Reply>): System {
    if id !in s.working then s
    else
      var t := s.(working := s.working - {id});
      if reply.None? then t
      else t.(produced := s.produced[id := Work(s.working[id], reply.value)],
              toDaemon := if s.online then s.toDaemon + [Response(id, reply.value)] else s.toDaemon)
  }

  function DoDaemonReads(s: System): System {
    if s.toDaemon == [] then s
    else
      var r, t := s.toDaemon[0], s.(toDaemon := s.toDaemon[1..]);
      if r.id !in s.pending then t
      else Settle(t.(pending := s.pending - {r.id}), r.id, if r.reply.ok then Resolved(r.reply.value) else Rejected(PiFailed))
  }

  function DoDisconnect(s: System): System {
    s.(online := false, pending := {}, toPi := [], toDaemon := [], aborted := s.aborted + s.working.Keys,
       outcome := AllUnavailable(s.outcome, s.pending))
  }

  function AllUnavailable(outcome: map<nat, Outcome>, ids: set<nat>): map<nat, Outcome> {
    outcome + map id | id in ids && id !in outcome :: Rejected(Unavailable)
  }

  function Step(s: System, e: Event): System {
    match e
    case Request(id, req, signal, aborted, fits) => DoRequest(s, id, req, signal, aborted, fits)
    case Timeout(id) => DoTimeout(s, id)
    case Abort(id) => DoAbort(s, id)
    case PiReads => DoPiReads(s)
    case PiFinishes(id, reply) => DoPiFinishes(s, id, reply)
    case DaemonReads => DoDaemonReads(s)
    case Disconnect => DoDisconnect(s)
  }

  /** Request ids are drawn at random. */
  predicate Possible(s: System, e: Event) {
    e.Request? ==> e.id !in s.asked
  }

  function Run(s: System, es: seq<Event>): System
    decreases |es|
  {
    if es == [] then s else Run(Step(s, es[0]), es[1..])
  }

  predicate AllPossible(s: System, es: seq<Event>)
    decreases |es|
  {
    es == [] || (Possible(s, es[0]) && AllPossible(Step(s, es[0]), es[1..]))
  }

  function Boot(): System {
    System(true, {}, {}, map[], [], [], map[], {}, map[], {}, map[], {})
  }

  // ---------------------------------------------------------------- what every step keeps

  /** A request is pending exactly while its promise is not settled. */
  ghost predicate Promises(pending: set<nat>, asked: map<nat, string>, outcome: map<nat, Outcome>, listeners: set<nat>) {
    && (forall id :: id in pending <==> id in asked && id !in outcome)
    && (forall id :: id in outcome ==> id in asked)
    && (forall id :: id in listeners ==> id in asked)
  }

  /** Frames under way carry what was asked, each id once, and no cancellation
      overtakes its request. */
  predicate Frames(toPi: seq<Frame>, asked: map<nat, string>, started: set<nat>, cancelled: set<nat>) {
    && (forall i :: 0 <= i < |toPi| ==> toPi[i].id in asked)
    && (forall i :: 0 <= i < |toPi| && toPi[i].Invoke? ==>
          toPi[i].req == asked[toPi[i].id] && toPi[i].id !in started && toPi[i].id !in cancelled)
    && (forall i, j :: 0 <= i < j < |toPi| && toPi[j].Invoke? ==> toPi[i].id != toPi[j].id)
    && (forall id :: id in started ==> id in asked)
    && (forall id :: id in cancelled ==> id in asked)
  }

  /** Pi works on each id once, for what was asked. */
  predicate Works(working: map<nat, string>, asked: map<nat, string>, started: set<nat>, produced: map<nat, Work>) {
    && (forall id :: id in working ==> id in started && id in asked && working[id] == asked[id] && id !in produced)
    && (forall id :: id in produced ==> id in started && id in asked && produced[id].req == asked[id])
  }

  /** Responses under way and resolved requests carry what Pi produced for them. */
  predicate Answers(toDaemon: seq<Response>, outcome: map<nat, Outcome>, produced: map<nat, Work>) {
    && (forall i :: 0 <= i < |toDaemon| ==> toDaemon[i].id in produced && produced[toDaemon[i].id].reply == toDaemon[i].reply)
    && (forall id :: id in outcome && outcome[id].Resolved? ==> id in produced && produced[id].reply == Reply(true, outcome[id].value))
  }

  predicate Cancels(working: map<nat, string>, aborted: set<nat>, cancelled: set<nat>) {
    forall id :: id in cancelled && id in working ==> id in aborted
  }

  ghost predicate Inv(s: System) {
    && Promises(s.pending, s.asked, s.outcome, s.listeners)
    && Frames(s.toPi, s.asked, s.started, s.cancelled)
    && Works(s.working, s.asked, s.started, s.produced)
    && Answers(s.toDaemon, s.outcome, s.produced)
    && Cancels(s.working, s.aborted, s.cancelled)
    && (!s.online ==> s.pending == {} && s.toPi == [])
  }

  lemma SendKeeps(toPi: seq<Frame>, asked: map<nat, string>, started: set<nat>, cancelled: set<nat>, id: nat, req: string, f: Frame)
    requires Frames(toPi, asked, started, cancelled) && f.id == id
    requires id in asked ==> asked[id] == req && f.Cancel?
    requires f.Invoke? ==> f.req == req
    ensures Frames(toPi + [f], asked[id := req], started, cancelled)
  {
  }

  lemma AskedKeeps(toPi: seq<Frame>, asked: map<nat, string>, started: set<nat>, cancelled: set<nat>, id: nat, req: string)
    requires Frames(toPi, asked, started, cancelled) && id !in asked
    ensures Frames(toPi, asked[id := req], started, cancelled)
  {
  }

  lemma RequestKeeps(s: System, id: nat, req: string, signal: bool, aborted: bool, fits: bool)
    requires Inv(s) && id !in s.asked
    ensures Inv(DoRequest(s, id, req, signal, aborted, fits))
  {
    AskedKeeps(s.toPi, s.asked, s.started, s.cancelled, id, req);
    if s.online && signal && aborted {
      SendKeeps(s.toPi, s.asked, s.started, s.cancelled, id, req, Cancel(id));
    } else if s.online && fits {
      SendKeeps(s.toPi, s.asked, s.started, s.cancelled, id, req, Invoke(id, req));
    }
  }

  lemma AbortKeeps(s: System, id: nat)
    requires Inv(s)
    ensures Inv(DoAbort(s, id))
  {
    if id in s.listeners {
      SendKeeps(s.toPi, s.asked, s.started, s.cancelled, id, s.asked[id], Cancel(id));
      assert s.asked[id := s.asked[id]] == s.asked;
    }
  }

  lemma PiReadsKeeps(s: System)
    requires Inv(s)
    ensures Inv(DoPiReads(s))
  {
    if s.toPi != [] {
      var rest := s.toPi[1..];
      assert forall i :: 0 <= i < |rest| ==> rest[i] == s.toPi[i + 1];
      assert forall i :: 0 <= i < |rest| && rest[i].Invoke? ==> rest[i].id != s.toPi[0].id;
    }
  }

  lemma PiFinishesKeeps(s: System, id: nat, reply: Option<Reply>)
    requires Inv(s)
    ensures Inv(DoPiFinishes(s, id, reply))
  {
  }

  lemma DaemonReadsKeeps(s: System)
    requires Inv(s)
    ensures Inv(DoDaemonReads(s))
  {
    if s.toDaemon != [] {
      var rest := s.toDaemon[1..];
      assert forall i :: 0 <= i < |rest| ==> rest[i] == s.toDaemon[i + 1];
    }
  }

  lemma StepKeeps(s: System, e: Event)
    requires Inv(s) && Possible(s, e)
    ensures Inv(Step(s, e))
  {
    match e
    case Request(id, req, signal, aborted, fits) => RequestKeeps(s, id, req, signal, aborted, fits);
    case Timeout(_) =>
    case Abort(id) => AbortKeeps(s, id);
    case PiReads => PiReadsKeeps(s);
    case PiFinishes(id, reply) => PiFinishesKeeps(s, id, reply);
    case DaemonReads => DaemonReadsKeeps(s);
    case Disconnect =>
  }

  lemma {:induction false} RunKeeps(s: System, es: seq<Event>)
    requires Inv(s) && AllPossible(s, es)
    ensures Inv(Run(s, es))
    decreases |es|
  {
    if es != [] {
      StepKeeps(s, es[0]);
      RunKeeps(Step(s, es[0]), es[1..]);
    }
  }

  // ---------------------------------------------------------------- the main results

  /** Over any run a request is pending exactly while it is not settled, and none
      is once the registration is gone. */
  lemma PendingIsUnsettled(es: seq<Event>)
    requires AllPossible(Boot(), es)
    ensures var s := Run(Boot(), es);
      (forall id :: id in s.pending <==> id in s.asked && id !in s.outcome) && (!s.online ==> s.pending == {})
  {
    RunKeeps(Boot(), es);
  }

  /** A settlement never changes, whatever happens later. */
  lemma {:induction false} SettledForGood(s: System, es: seq<Event>, id: nat)
    requires Inv(s) && AllPossible(s, es) && id in s.outcome
    ensures id in Run(s, es).outcome && Run(s, es).outcome[id] == s.outcome[id]
    decreases |es|
  {
    if es != [] {
      StepKeeps(s, es[0]);
      StepOnlyAdds(s, es[0], id);
      SettledForGood(Step(s, es[0]), es[1..], id);
    }
  }

  lemma StepOnlyAdds(s: System, e: Event, id: nat)
    requires id in s.outcome
    ensures id in Step(s, e).outcome && Step(s, e).outcome[id] == s.outcome[id]
  {
  }

  /** A request resolves only with what Pi replied to that very request, and Pi
      works on no request twice. */
  lemma ResolvedByOwnReply(es: seq<Event>, id: nat)
    requires AllPossible(Boot(), es) && id in Run(Boot(), es).outcome && Run(Boot(), es).outcome[id].Resolved?
    ensures var s := Run(Boot(), es);
      id in s.produced && id in s.asked && s.produced[id] == Work(s.asked[id], Reply(true, s.outcome[id].value))
  {
    RunKeeps(Boot(), es);
  }

  /** A cancellation Pi has read finds its handler: one still at work is aborted,
      and one not yet begun never begins. */
  lemma CancelFindsTheHandler(es: seq<Event>, more: seq<Event>, id: nat)
    requires AllPossible(Boot(), es) && id in Run(Boot(), es).cancelled
    requires AllPossible(Run(Boot(), es), more)
    ensures id in Run(Boot(), es).working ==> id in Run(Boot(), es).aborted
    ensures id in Run(Run(Boot(), es), more).started ==> id in Run(Boot(), es).started
  {
    RunKeeps(Boot(), es);
    NeverBegins(Run(Boot(), es), more, id);
  }

  lemma {:induction false} NeverBegins(s: System, es: seq<Event>, id: nat)
    requires Inv(s) && AllPossible(s, es) && id in s.cancelled
    ensures id in Run(s, es).started ==> id in s.started
    decreases |es|
  {
    if es != [] {
      StepKeeps(s, es[0]);
      StepBeginsNone(s, es[0], id);
      NeverBegins(Step(s, es[0]), es[1..], id);
    }
  }

  lemma StepBeginsNone(s: System, e: Event, id: nat)
    requires Frames(s.toPi, s.asked, s.started, s.cancelled) && id in s.cancelled
    ensures id in Step(s, e).cancelled && (id in Step(s, e).started ==> id in s.started)
  {
  }

  // ---------------------------------------------------------------- the two ends

  /** The daemon's end of a registration, with the queues of its socket. */
  class Registration {
    var online: bool
    var pending: set<nat>
    var listeners: set<nat>
    var toPi: seq<Frame>
    var toDaemon: seq<Response>
    ghost var outcome: map<nat, Outcome>
    ghost var asked: map<nat, string>

    /** The daemon's part of the state; the rest is Pi's. */
    ghost predicate Shows(s: System)
      reads this
    {
      && s.online == online && s.pending == pending && s.listeners == listeners && s.outcome == outcome
      && s.toPi == toPi && s.toDaemon == toDaemon && s.asked == asked
    }

    constructor ()
      ensures Shows(Boot())
    {
      online, pending, listeners, toPi, toDaemon, outcome, asked := true, {}, {}, [], [], map[], map[];
    }

    method SettlePromise(id: nat, o: Outcome)
      modifies this`outcome
      ensures outcome == if id in old(outcome) then old(outcome) else old(outcome)[id := o]
    {
      if id !in outcome {
        outcome := outcome[id := o];
      }
    }

    method InvokeMethod(ghost s: System, id: nat, req: string, signal: bool, aborted: bool, fits: bool)
      requires Shows(s) && id !in pending && id !in listeners
      modifies this
      ensures Shows(DoRequest(s, id, req, signal, aborted, fits))
    {
      asked := asked[id := req];
      if !online {
        SettlePromise(id, Rejected(Offline));
        return;
      }
      pending := pending + {id};
      if signal && aborted {
        pending := pending - {id};
        toPi := toPi + [Cancel(id)];
        SettlePromise(id, Rejected(Aborted));
        return;
      }
      if signal {
        listeners := listeners + {id};
      }
      if !fits {
        pending := pending - {id};
        listeners := listeners - {id};
        SettlePromise(id, Rejected(TooLarge));
        return;
      }
      toPi := toPi + [Invoke(id, req)];
    }

    method OnTimeout(ghost s: System, id: nat)
      requires Shows(s)
      modifies this
      ensures Shows(DoTimeout(s, id))
    {
      if id in pending {
        pending := pending - {id};
        SettlePromise(id, Rejected(TimedOut));
      }
    }

    method OnAbort(ghost s: System, id: nat)
      requires Shows(s)
      modifies this
      ensures Shows(DoAbort(s, id))
    {
      if id !in listeners {
        return;
      }
      listeners := listeners - {id};
      pending := pending - {id};
      if online {
        toPi := toPi + [Cancel(id)];
      }
      SettlePromise(id, Rejected(Aborted));
    }

    method OnResponse(ghost s: System)
      requires Shows(s)
      modifies this
      ensures Shows(DoDaemonReads(s))
    {
      if toDaemon == [] {
        return;
      }
      var r := toDaemon[0];
      toDaemon := toDaemon[1..];
      if r.id !in pending {
        return;
      }
      pending := pending - {r.id};
      SettlePromise(r.id, if r.reply.ok then Resolved(r.reply.value) else Rejected(PiFailed));
    }

    method FailRegistration(ghost s: System)
      requires Shows(s)
      modifies this
      ensures Shows(DoDisconnect(s))
    {
      online := false;
      var todo := pending;
      assert pending - todo == {} && AllUnavailable(s.outcome, {}) == s.outcome;
      while todo != {}
        invariant todo <= pending && pending == s.pending && listeners == s.listeners && asked == s.asked && !online
        invariant outcome == AllUnavailable(s.outcome, pending - todo)
        decreases |todo|
      {
        var id :| id in todo;
        OneMoreUnavailable(s.outcome, pending - todo, id);
        assert pending - (todo - {id}) == pending - todo + {id};
        todo := todo - {id};
        SettlePromise(id, Rejected(Unavailable));
      }
      assert pending - todo == pending;
      pending, toPi, toDaemon := {}, [], [];
    }
  }

  lemma OneMoreUnavailable(outcome: map<nat, Outcome>, ids: set<nat>, id: nat)
    ensures var o := AllUnavailable(outcome, ids);
      AllUnavailable(outcome, ids + {id}) == if id in o then o else o[id := Rejected(Unavailable)]
  {
  }
}
