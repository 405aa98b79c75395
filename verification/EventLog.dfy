/** The event queues read off from the events: which bindings are registered, which
    subscriptions exist, which publications are accepted, and what is due to each
    subscription; and what a publication and a poll do to the queues.
 */
module EventLog {
  import opened EventQueues

  datatype Who = Who(id: string, binding: string, filter: Filter)

  datatype Log = Log(regs: map<string, string>, subs: seq<Who>, accepted: seq<Key>, due: map<string, seq<Ev>>)

  // ---------------------------------------------------------------- what the events say

  /** A filter field asks for nothing or for exactly this value. */
  predicate FieldOk(expected: string, actual: Option<string>) {
    expected == "" || actual == Some(expected)
  }

  /** The subscription asks for this event. */
  predicate AsksFor(w: Who, ev: Ev) {
    && w.binding == ev.binding
    && FieldOk(w.filter.serviceId, ev.serviceId) && FieldOk(w.filter.threadId, ev.threadId) && FieldOk(w.filter.nativeType, Some(ev.nativeType))
    && (w.filter.nativeTypes == None || w.filter.nativeTypes == Some([]) || ev.nativeType in w.filter.nativeTypes.value)
  }

  /** The key is among the last 4096 accepted ones. */
  predicate Recent(accepted: seq<Key>, k: Key) {
    exists i :: 0 <= i < |accepted| && |accepted| - 4096 <= i && accepted[i] == k
  }

  predicate AcceptedBy(l: Log, binding: string, raw: Ev) {
    binding in l.regs && raw.nativeType != "" && !Recent(l.accepted, Key(binding, raw.id))
  }

  function Keep(ws: seq<Who>, out: Who -> bool): seq<Who> {
    if ws == [] then [] else (if out(ws[0]) then [] else [ws[0]]) + Keep(ws[1..], out)
  }

  function AllDue(due: map<string, seq<Ev>>, ws: seq<Who>, ev: Ev): map<string, seq<Ev>> {
    map id | id in due :: due[id] + if exists w :: w in ws && w.id == id && AsksFor(w, ev) then [ev] else []
  }

  function Logged(l: Log, e: Event): Log {
    match e
    case Register(binding, epoch) => l.(regs := l.regs[binding := epoch])
    case Subscribe(id, binding, filter) => if binding in l.regs then l.(subs := l.subs + [Who(id, binding, filter)], due := l.due[id := []]) else l
    case Publish(binding, raw) =>
      if AcceptedBy(l, binding, raw) then
        l.(accepted := l.accepted + [Key(binding, raw.id)], due := AllDue(l.due, l.subs, raw.(binding := binding, epoch := l.regs[binding])))
      else l
    case Poll(_, _) => l
    case Unsubscribe(id) => l.(subs := Keep(l.subs, (w: Who) => w.id == id))
    case Disconnect(binding) => if binding in l.regs then l.(regs := l.regs - {binding}, subs := Keep(l.subs, (w: Who) => w.binding == binding)) else l
    case Close(_) => l.(regs := map[], subs := [])
  }

  function LogOf(es: seq<Event>): Log {
    if es == [] then Log(map[], [], [], map[]) else Logged(LogOf(es[..|es| - 1]), es[|es| - 1])
  }

  // ---------------------------------------------------------------- the daemon keeps to it

  function Whos(subs: seq<Sub>): seq<Who> {
    seq(|subs|, i requires 0 <= i < |subs| => Who(subs[i].id, subs[i].binding, subs[i].filter))
  }

  ghost predicate Follows(s: State, l: Log) {
    && s.regs == l.regs && Whos(s.subs) == l.subs && s.accepted == l.accepted
    && s.notes.Keys == l.due.Keys && forall id :: id in s.notes ==> s.notes[id].due == l.due[id]
  }

  lemma WantsIff(sub: Sub, ev: Ev)
    ensures Wants(sub, ev) <==> AsksFor(Who(sub.id, sub.binding, sub.filter), ev)
  {
  }

  lemma WindowIff(seen: seq<Key>, accepted: seq<Key>, from: nat, k: Key)
    requires from == (if |accepted| > 4096 then |accepted| - 4096 else 0) && seen == accepted[from..]
    ensures k in seen <==> Recent(accepted, k)
  {
    if k in seen {
      var i :| 0 <= i < |seen| && seen[i] == k;
      assert accepted[from + i] == k;
    }
    if Recent(accepted, k) {
      var i :| 0 <= i < |accepted| && |accepted| - 4096 <= i && accepted[i] == k;
      assert seen[i - from] == k;
    }
  }

  lemma SeenIff(s: State, k: Key)
    requires Windowed(s.seen, s.accepted)
    ensures k in s.seen <==> Recent(s.accepted, k)
  {
    WindowIff(s.seen, s.accepted, if |s.accepted| > DEDUPE_WINDOW then |s.accepted| - DEDUPE_WINDOW else 0, k);
  }

  function DueOf(s: State, id: string): seq<Ev> {
    if id in s.notes then s.notes[id].due else []
  }

  lemma CollapseDue(s: State, i: nat, item: Item, id: string)
    requires i < |s.subs|
    ensures Collapse(s, i, item).notes.Keys == s.notes.Keys && DueOf(Collapse(s, i, item), id) == DueOf(s, id)
  {
  }

  lemma MakeRoomDue(s: State, i: nat, ev: Ev, id: string)
    requires i < |s.subs|
    ensures MakeRoom(s, i, ev).notes.Keys == s.notes.Keys && DueOf(MakeRoom(s, i, ev), id) == DueOf(s, id)
  {
    var f := FirstNonEmpty(s.subs);
    var t := if f == i then s else Dropped(s, s.subs[i].id);
    assert t.notes.Keys == s.notes.Keys && DueOf(t, id) == DueOf(s, id);
    if f < |s.subs| {
      CollapseDue(t, f, Resync(ev, "global_delivery_capacity"), id);
    }
  }

  /** One offer records the event as due exactly when the subscription wants it. */
  lemma OfferDue(s: State, i: nat, ev: Ev, id: string)
    requires i < |s.subs|
    ensures var t := Offer(s, i, ev);
      && t.notes.Keys == s.notes.Keys
      && (id in s.notes ==> DueOf(t, id) == DueOf(s, id) + if id == s.subs[i].id && Wants(s.subs[i], ev) then [ev] else [])
  {
    if Wants(s.subs[i], ev) {
      var t := Due(s, s.subs[i].id, ev);
      CollapseDue(t, i, Resync(ev, "delivery_capacity"), id);
      MakeRoomDue(t, i, ev, id);
    }
  }

  /** Some subscription from i on has this id and wants the event. */
  predicate WantedFrom(subs: seq<Sub>, i: nat, id: string, ev: Ev) {
    exists j :: i <= j < |subs| && subs[j].id == id && Wants(subs[j], ev)
  }

  lemma WantedNext(subs: seq<Sub>, i: nat, id: string, ev: Ev)
    requires i < |subs| && DistinctIds(subs)
    ensures WantedFrom(subs, i, id, ev) <==> (id == subs[i].id && Wants(subs[i], ev)) || WantedFrom(subs, i + 1, id, ev)
    ensures id == subs[i].id ==> !WantedFrom(subs, i + 1, id, ev)
  {
  }

  lemma SameWants(a: seq<Sub>, b: seq<Sub>, i: nat, id: string, ev: Ev)
    requires SameSubs(a, b)
    ensures WantedFrom(b, i, id, ev) <==> WantedFrom(a, i, id, ev)
  {
    assert forall j :: 0 <= j < |a| ==> b[j].id == a[j].id && (Wants(b[j], ev) <==> Wants(a[j], ev));
  }

  lemma SameDistinct(a: seq<Sub>, b: seq<Sub>)
    requires SameSubs(a, b) && DistinctIds(a)
    ensures DistinctIds(b) && |b| == |a|
  {
  }

  function Extra(wanted: bool, ev: Ev): seq<Ev> {
    if wanted then [ev] else []
  }

  lemma {:induction false} OfferFromDue(s: State, i: nat, ev: Ev, id: string)
    requires i <= |s.subs| && DistinctIds(s.subs) && id in s.notes
    ensures DueOf(OfferFrom(s, i, ev), id) == DueOf(s, id) + Extra(WantedFrom(s.subs, i, id, ev), ev)
    decreases |s.subs| - i
  {
    if i < |s.subs| {
      var t := Offer(s, i, ev);
      OfferDue(s, i, ev, id);
      OfferOnlyQueues(s, i, ev);
      SameDistinct(s.subs, t.subs);
      SameWants(s.subs, t.subs, i + 1, id, ev);
      OfferFromDue(t, i + 1, ev, id);
      WantedNext(s.subs, i, id, ev);
    }
  }

  lemma {:induction false} OfferFromKeys(s: State, i: nat, ev: Ev)
    requires i <= |s.subs|
    ensures OfferFrom(s, i, ev).notes.Keys == s.notes.Keys
    decreases |s.subs| - i
  {
    if i < |s.subs| {
      OfferDue(s, i, ev, "");
      OfferKeepsShape(s, i, ev);
      OfferFromKeys(Offer(s, i, ev), i + 1, ev);
    }
  }

  lemma WhosOf(subs: seq<Sub>, id: string, ev: Ev)
    ensures WantedFrom(subs, 0, id, ev) <==> exists w :: w in Whos(subs) && w.id == id && AsksFor(w, ev)
  {
    if WantedFrom(subs, 0, id, ev) {
      var j :| 0 <= j < |subs| && subs[j].id == id && Wants(subs[j], ev);
      WantsIff(subs[j], ev);
      assert Whos(subs)[j] in Whos(subs);
    }
    if exists w :: w in Whos(subs) && w.id == id && AsksFor(w, ev) {
      var w :| w in Whos(subs) && w.id == id && AsksFor(w, ev);
      var j :| 0 <= j < |subs| && Whos(subs)[j] == w;
      WantsIff(subs[j], ev);
    }
  }

  lemma SameWhos(a: seq<Sub>, b: seq<Sub>)
    requires SameSubs(a, b)
    ensures Whos(a) == Whos(b)
  {
  }

  lemma PublishFollows(s: State, l: Log, binding: string, raw: Ev)
    requires Inv(s) && Follows(s, l)
    ensures Follows(DoPublish(s, binding, raw), Logged(l, Publish(binding, raw)))
  {
    SeenIff(s, Key(binding, raw.id));
    if AcceptedBy(l, binding, raw) {
      var key, ev := Key(binding, raw.id), raw.(binding := binding, epoch := s.regs[binding]);
      var start := s.(seen := Remember(s.seen, key), accepted := s.accepted + [key]);
      var t := OfferFrom(start, 0, ev);
      assert DoPublish(s, binding, raw) == t;
      OfferFromOnlyQueues(start, 0, ev);
      SameWhos(start.subs, t.subs);
      OfferFromKeys(start, 0, ev);
      forall id | id in s.notes ensures t.notes[id].due == AllDue(l.due, l.subs, ev)[id] {
        OfferFromDue(start, 0, ev, id);
        WhosOf(s.subs, id, ev);
      }
    }
  }

  // ---------------------------------------------------------------- subscriptions come and go

  lemma {:induction false} KeepWhos(subs: seq<Sub>, binding: string)
    ensures Whos(Others(subs, binding)) == Keep(Whos(subs), (w: Who) => w.binding == binding)
  {
    if subs != [] {
      var f := (w: Who) => w.binding == binding;
      KeepWhos(subs[1..], binding);
      assert Whos(subs)[1..] == Whos(subs[1..]);
      assert subs[0].binding != binding ==> Whos([subs[0]] + Others(subs[1..], binding)) == [Whos(subs)[0]] + Whos(Others(subs[1..], binding));
    }
  }

  lemma {:induction false} KeepNone(ws: seq<Who>, out: Who -> bool)
    requires forall w :: w in ws ==> !out(w)
    ensures Keep(ws, out) == ws
  {
    if ws != [] {
      assert ws[0] in ws;
      KeepNone(ws[1..], out);
    }
  }

  lemma WhosCons(sub: Sub, rest: seq<Sub>)
    ensures Whos([sub] + rest) == [Who(sub.id, sub.binding, sub.filter)] + Whos(rest)
  {
  }

  lemma KeepCons(w: Who, ws: seq<Who>, out: Who -> bool)
    ensures Keep([w] + ws, out) == (if out(w) then [] else [w]) + Keep(ws, out)
  {
    assert ([w] + ws)[1..] == ws;
  }

  lemma CutCons(subs: seq<Sub>, i: nat)
    requires 0 < i < |subs|
    ensures subs[..i] + subs[i + 1..] == [subs[0]] + (subs[1..][..i - 1] + subs[1..][i..])
  {
  }

  lemma OthersStay(subs: seq<Sub>, id: string, out: Who -> bool)
    requires (forall i :: 0 <= i < |subs| ==> subs[i].id != id) && forall w: Who :: out(w) <==> w.id == id
    ensures Keep(Whos(subs), out) == Whos(subs)
  {
    KeepNone(Whos(subs), out);
  }

  lemma {:induction false} DropWho(subs: seq<Sub>, id: string, i: nat, out: Who -> bool)
    requires DistinctIds(subs) && i < |subs| && subs[i].id == id && forall w: Who :: out(w) <==> w.id == id
    ensures Whos(subs[..i] + subs[i + 1..]) == Keep(Whos(subs), out)
    decreases i
  {
    var first, rest := subs[0], subs[1..];
    var who := Who(first.id, first.binding, first.filter);
    assert subs == [first] + rest;
    WhosCons(first, rest);
    KeepCons(who, Whos(rest), out);
    if i == 0 {
      assert subs[..0] + subs[1..] == rest;
      OthersStay(rest, id, out);
    } else {
      DropWho(rest, id, i - 1, out);
      WhosCons(first, rest[..i - 1] + rest[i..]);
      CutCons(subs, i);
    }
  }

  lemma UnsubscribeFollows(s: State, l: Log, id: string)
    requires Inv(s) && Follows(s, l)
    ensures Follows(DoUnsubscribe(s, id), Logged(l, Unsubscribe(id)))
  {
    var i := Find(s.subs, id);
    if i < |s.subs| {
      DropWho(s.subs, id, i, (w: Who) => w.id == id);
    } else {
      KeepNone(Whos(s.subs), (w: Who) => w.id == id);
    }
  }

  lemma PollFollows(s: State, l: Log, id: string, limit: Option<nat>)
    requires Inv(s) && Follows(s, l)
    ensures Follows(DoPoll(s, id, limit), l)
  {
    var t := DoPoll(s, id, limit);
    assert Whos(t.subs) == Whos(s.subs);
  }

  lemma {:induction false} FailAllFollows(s: State, bindings: seq<string>)
    ensures FailAll(s, bindings).accepted == s.accepted && FailAll(s, bindings).notes == s.notes
    decreases |bindings|
  {
    if bindings != [] {
      FailAllFollows(DoDisconnect(s, bindings[0]), bindings[1..]);
    }
  }

  lemma StepFollows(s: State, l: Log, e: Event)
    requires Inv(s) && Possible(s, e) && Follows(s, l)
    ensures Follows(Step(s, e), Logged(l, e))
  {
    match e
    case Register(_, _) =>
    case Subscribe(id, binding, filter) =>
      var sub := Sub(id, binding, filter, []);
      assert Whos(s.subs + [sub]) == Whos(s.subs) + [Who(id, binding, filter)];
    case Publish(binding, raw) => PublishFollows(s, l, binding, raw);
    case Poll(id, limit) => PollFollows(s, l, id, limit);
    case Unsubscribe(id) => UnsubscribeFollows(s, l, id);
    case Disconnect(binding) => KeepWhos(s.subs, binding);
    case Close(bindings) => FailAllFollows(s, bindings);
  }

  /** From the events: in every run the bindings registered, the subscriptions with
      their filters, the publications accepted and the events due to each
      subscription are what the events add up to. */
  lemma {:induction false} LogIsKept(es: seq<Event>)
    requires AllPossible(Boot(), es)
    ensures Follows(Run(Boot(), es), LogOf(es))
    decreases |es|
  {
    if es != [] {
      var init, e := es[..|es| - 1], es[|es| - 1];
      assert es == init + [e];
      RunSnoc(Boot(), init, e);
      LogIsKept(init);
      RunKeeps(Boot(), init);
      StepFollows(Run(Boot(), init), LogOf(init), e);
    }
  }

  /** A subscription that no overflow has touched has been handed and has queued
      exactly the accepted events it asks for since it was made, in order. */
  lemma UntouchedGetsAll(es: seq<Event>, i: nat)
    requires AllPossible(Boot(), es) && i < |Run(Boot(), es).subs|
    ensures var s := Run(Boot(), es);
      var id := s.subs[i].id;
      id in s.notes && id in LogOf(es).due && (!s.notes[id].hit ==> Lossless(s.notes[id].drained + s.subs[i].queue, LogOf(es).due[id]))
  {
    LogIsKept(es);
    DeliveryIsFaithful(es, i);
  }

  // ---------------------------------------------------------------- what a publication and a poll do

  /** While the global bound is out of reach a publication reaches everybody: who asks
      for the event gets it at the end of the queue, or a notice in place of a full
      queue, and every other queue stays as it is. */
  lemma PublishReaches(s: State, binding: string, raw: Ev, ev: Ev, j: nat)
    requires Inv(s) && binding in s.regs && raw.nativeType != "" && ev == raw.(binding := binding, epoch := s.regs[binding])
    requires Key(binding, raw.id) !in s.seen && s.total + |s.subs| <= MAX_GLOBAL && j < |s.subs|
    ensures var t, q := DoPublish(s, binding, raw), s.subs[j].queue;
      && |t.subs| == |s.subs|
      && t.subs[j].queue ==
           if !AsksFor(Who(s.subs[j].id, s.subs[j].binding, s.subs[j].filter), ev) then q
           else if |q| == 64 then [Resync(ev, "delivery_capacity")] else q + [Delivered(ev)]
  {
    var start := s.(seen := Remember(s.seen, Key(binding, raw.id)), accepted := s.accepted + [Key(binding, raw.id)]);
    forall i | 0 <= i < |s.subs| ensures !Crowded(s.subs, s.total, 0, i, ev) {
      LoadBelow(s.subs, s.total, i, ev);
    }
    PublishQuiet(start, ev);
    WantsIff(s.subs[j], ev);
  }

  lemma {:induction false} LoadBelow(subs: seq<Sub>, total: int, i: nat, ev: Ev)
    requires i <= |subs|
    ensures Load(subs, total, 0, i, ev) <= total + i
  {
    if i > 0 {
      LoadBelow(subs, total, i - 1, ev);
    }
  }

  /** Only an overflow touches a subscription: a publication that finds no full queue
      among those that ask for it, and the global bound out of reach, touches none. */
  lemma {:induction false} OffersDoNotHit(s: State, i: nat, ev: Ev, id: string)
    requires i <= |s.subs| && s.total + (|s.subs| - i) <= MAX_GLOBAL && id in s.notes
    requires forall j :: i <= j < |s.subs| && Wants(s.subs[j], ev) ==> |s.subs[j].queue| < MAX_PER_SUBSCRIPTION
    ensures id in OfferFrom(s, i, ev).notes && OfferFrom(s, i, ev).notes[id].hit == s.notes[id].hit
    decreases |s.subs| - i
  {
    if i < |s.subs| {
      var t := Offer(s, i, ev);
      OfferKeepsShape(s, i, ev);
      OffersDoNotHit(t, i + 1, ev, id);
    }
  }

  /** A poll hands over the oldest items, as many as asked for, or 64, and keeps the rest. */
  lemma PollHands(es: seq<Event>, i: nat, limit: Option<nat>)
    requires AllPossible(Boot(), es) && i < |Run(Boot(), es).subs|
    ensures var s := Run(Boot(), es);
      var id, q := s.subs[i].id, s.subs[i].queue;
      var t := Step(s, Poll(id, limit));
      var most := if limit.Some? then limit.value else 64;
      var n := if |q| <= most then |q| else most;
      && |t.subs| == |s.subs| && t.subs[i].queue == q[n..]
      && id in s.notes && id in t.notes && t.notes[id].drained == s.notes[id].drained + q[..n]
  {
    var s := Run(Boot(), es);
    RunKeeps(Boot(), es);
    var k := Find(s.subs, s.subs[i].id);
    assert k == i;
  }
}
