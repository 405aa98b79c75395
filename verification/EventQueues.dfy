/** The daemon's event queues: registered bindings publish events, subscriptions
    queue the ones that match, and clients poll.  One counter bounds all queues
    together, and an overflow replaces a queue by a single resync notice.

    `State.notes` and `State.accepted` are an observer's notes: what was due to
    each subscription, what it was handed, whether an overflow touched it and
    whether it lost an event without a notice of its own; and which event keys
    were accepted.
 */
module EventQueues {

  datatype Option<T> = None | Some(value: T)

  const MAX_PER_SUBSCRIPTION: nat := 64
  const MAX_GLOBAL: nat := 256
  const DEDUPE_WINDOW: nat := 4096

  datatype Ev = Ev(id: string, binding: string, epoch: string, nativeType: string, serviceId: Option<string>, threadId: Option<string>, payload: string)

  datatype Item = Delivered(ev: Ev) | Resync(ev: Ev, reason: string)

  datatype Filter = Filter(serviceId: string, threadId: string, nativeType: string, nativeTypes: Option<seq<string>>)

  datatype Sub = Sub(id: string, binding: string, filter: Filter, queue: seq<Item>)

  datatype Note = Note(due: seq<Ev>, drained: seq<Item>, hit: bool, silent: bool)

  datatype Key = Key(binding: string, id: string)

  datatype State = State(
    regs: map<string, string>, subs: seq<Sub>, seen: seq<Key>, total: int,
    notes: map<string, Note>, accepted: seq<Key>)

  /** An empty field of the filter admits everything; a list of types is one more condition. */
  predicate EventMatches(f: Filter, ev: Ev) {
    && (f.serviceId != "" ==> ev.serviceId == Some(f.serviceId))
    && (f.threadId != "" ==> ev.threadId == Some(f.threadId))
    && (f.nativeType != "" ==> ev.nativeType == f.nativeType)
    && (f.nativeTypes.Some? && f.nativeTypes.value != [] ==> ev.nativeType in f.nativeTypes.value)
  }

  // ---------------------------------------------------------------- publishing

  /** The first subscription, in order of creation, that has something queued. */
  function FirstNonEmpty(subs: seq<Sub>): (f: nat)
    ensures f <= |subs| && (f < |subs| ==> subs[f].queue != [])
    ensures forall j :: 0 <= j < f ==> subs[j].queue == []
  {
    if subs == [] || subs[0].queue != [] then 0 else 1 + FirstNonEmpty(subs[1..])
  }

  /** A queue becomes one notice. */
  function Collapse(s: State, i: nat, item: Item): State
    requires i < |s.subs|
  {
    s.(subs := s.subs[i := s.subs[i].(queue := [item])], total := s.total - |s.subs[i].queue| + 1,
       notes := if s.subs[i].id in s.notes then s.notes[s.subs[i].id := s.notes[s.subs[i].id].(hit := true)] else s.notes)
  }

  function Due(s: State, id: string, ev: Ev): State {
    if id in s.notes then s.(notes := s.notes[id := s.notes[id].(due := s.notes[id].due + [ev])]) else s
  }

  function Dropped(s: State, id: string): State {
    if id in s.notes then s.(notes := s.notes[id := s.notes[id].(hit := true, silent := true)]) else s
  }

  function Push(s: State, i: nat, item: Item): State
    requires i < |s.subs|
  {
    s.(subs := s.subs[i := s.subs[i].(queue := s.subs[i].queue + [item])], total := s.total + 1)
  }

  predicate Wants(sub: Sub, ev: Ev) {
    sub.binding == ev.binding && EventMatches(sub.filter, ev)
  }

  /** When the global bound is reached, the first queue that holds anything gives way. */
  function MakeRoom(s: State, i: nat, ev: Ev): State
    requires i < |s.subs|
  {
    var f := FirstNonEmpty(s.subs);
    var t := if f == i then s else Dropped(s, s.subs[i].id);
    if f < |s.subs| then Collapse(t, f, Resync(ev, "global_delivery_capacity")) else t
  }

  function Offer(s: State, i: nat, ev: Ev): State
    requires i < |s.subs|
  {
    if !Wants(s.subs[i], ev) then s
    else
      var t := Due(s, s.subs[i].id, ev);
      if |t.subs[i].queue| >= MAX_PER_SUBSCRIPTION then Collapse(t, i, Resync(ev, "delivery_capacity"))
      else if t.total >= MAX_GLOBAL then MakeRoom(t, i, ev)
      else Push(t, i, Delivered(ev))
  }

  lemma OfferKeepsShape(s: State, i: nat, ev: Ev)
    requires i < |s.subs|
    ensures |Offer(s, i, ev).subs| == |s.subs|
  {
  }

  function OfferFrom(s: State, i: nat, ev: Ev): State
    decreases |s.subs| - i
  {
    if i >= |s.subs| then s
    else
      OfferKeepsShape(s, i, ev);
      OfferFrom(Offer(s, i, ev), i + 1, ev)
  }

  /** The dedupe window forgets its oldest key. */
  function Remember(seen: seq<Key>, k: Key): seq<Key> {
    var more := seen + [k];
    if |more| > DEDUPE_WINDOW then more[|more| - DEDUPE_WINDOW..] else more
  }

  function DoPublish(s: State, binding: string, raw: Ev): State {
    if binding !in s.regs || raw.nativeType == "" then s
    else
      var ev := raw.(binding := binding, epoch := s.regs[binding]);
      var key := Key(binding, ev.id);
      if key in s.seen then s
      else OfferFrom(s.(seen := Remember(s.seen, key), accepted := s.accepted + [key]), 0, ev)
  }

  // ---------------------------------------------------------------- the other steps

  function Find(subs: seq<Sub>, id: string): (i: nat)
    ensures i <= |subs| && (i < |subs| ==> subs[i].id == id)
    ensures i == |subs| ==> forall j :: 0 <= j < |subs| ==> subs[j].id != id
  {
    if subs == [] || subs[0].id == id then 0 else 1 + Find(subs[1..], id)
  }

  function DoSubscribe(s: State, id: string, binding: string, filter: Filter): State {
    if binding !in s.regs then s
    else s.(subs := s.subs + [Sub(id, binding, filter, [])], notes := s.notes[id := Note([], [], false, false)])
  }

  function Taken(limit: Option<nat>, queue: seq<Item>): (n: nat)
    ensures n <= |queue|
  {
    var most := if limit.Some? then limit.value else 64;
    if most < |queue| then most else |queue|
  }

  /** The first n items of queue i are handed over. */
  function Handed(s: State, i: nat, n: nat): State
    requires i < |s.subs| && n <= |s.subs[i].queue|
  {
    var id, q := s.subs[i].id, s.subs[i].queue;
    s.(subs := s.subs[i := s.subs[i].(queue := q[n..])], total := s.total - n,
       notes := if id in s.notes then s.notes[id := s.notes[id].(drained := s.notes[id].drained + q[..n])] else s.notes)
  }

  function DoPoll(s: State, id: string, limit: Option<nat>): State {
    var i := Find(s.subs, id);
    if i == |s.subs| then s else Handed(s, i, Taken(limit, s.subs[i].queue))
  }

  function DoUnsubscribe(s: State, id: string): State {
    var i := Find(s.subs, id);
    if i == |s.subs| then s
    else s.(subs := s.subs[..i] + s.subs[i + 1..], total := s.total - |s.subs[i].queue|)
  }

  function Others(subs: seq<Sub>, binding: string): seq<Sub> {
    if subs == [] then []
    else if subs[0].binding == binding then Others(subs[1..], binding)
    else [subs[0]] + Others(subs[1..], binding)
  }

  function QueuedFor(subs: seq<Sub>, binding: string): nat {
    if subs == [] then 0 else (if subs[0].binding == binding then |subs[0].queue| else 0) + QueuedFor(subs[1..], binding)
  }

  /** A registration that fails takes its subscriptions along. */
  function DoDisconnect(s: State, binding: string): State {
    if binding !in s.regs then s
    else s.(regs := s.regs - {binding}, subs := Others(s.subs, binding), total := s.total - QueuedFor(s.subs, binding))
  }

  /** Fail every registration, in order; the subscriptions that are left are
      cleared without touching the counter. */
  function FailAll(s: State, bindings: seq<string>): State
    decreases |bindings|
  {
    if bindings == [] then s else FailAll(DoDisconnect(s, bindings[0]), bindings[1..])
  }

  function DoClose(s: State, bindings: seq<string>): State {
    FailAll(s, bindings).(regs := map[], subs := [])
  }

  datatype Event =
    | Register(binding: string, epoch: string)
    | Subscribe(id: string, binding: string, filter: Filter)
    | Publish(binding: string, raw: Ev)
    | Poll(id: string, limit: Option<nat>)
    | Unsubscribe(id: string)
    | Disconnect(binding: string)
    | Close(bindings: seq<string>)

  function Step(s: State, e: Event): State {
    match e
    case Register(binding, epoch) => s.(regs := s.regs[binding := epoch])
    case Subscribe(id, binding, filter) => DoSubscribe(s, id, binding, filter)
    case Publish(binding, raw) => DoPublish(s, binding, raw)
    case Poll(id, limit) => DoPoll(s, id, limit)
    case Unsubscribe(id) => DoUnsubscribe(s, id)
    case Disconnect(binding) => DoDisconnect(s, binding)
    case Close(bindings) => DoClose(s, bindings)
  }

  /** Subscription ids are drawn at random, and closing goes through every registration. */
  predicate Possible(s: State, e: Event) {
    && (e.Subscribe? ==> e.id !in s.notes)
    && (e.Close? ==> forall b :: b in s.regs ==> b in e.bindings)
  }

  function Run(s: State, es: seq<Event>): State
    decreases |es|
  {
    if es == [] then s else Run(Step(s, es[0]), es[1..])
  }

  predicate AllPossible(s: State, es: seq<Event>)
    decreases |es|
  {
    es == [] || (Possible(s, es[0]) && AllPossible(Step(s, es[0]), es[1..]))
  }

  function Boot(): State {
    State(map[], [], [], 0, map[], [])
  }

  // ---------------------------------------------------------------- what every step keeps

  function Sum(subs: seq<Sub>): nat {
    if subs == [] then 0 else |subs[0].queue| + Sum(subs[1..])
  }

  /** a is b with some elements left out. */
  predicate Subsequence(a: seq<Ev>, b: seq<Ev>) {
    a == [] || (b != [] &&
      if a[|a| - 1] == b[|b| - 1] then Subsequence(a[..|a| - 1], b[..|b| - 1]) else Subsequence(a, b[..|b| - 1]))
  }

  /** The events among the items. */
  function Real(items: seq<Item>): seq<Ev> {
    if items == [] then []
    else
      var rest := Real(items[..|items| - 1]);
      if items[|items| - 1].Delivered? then rest + [items[|items| - 1].ev] else rest
  }

  predicate Announced(items: seq<Item>) {
    exists x :: x in items && x.Resync?
  }

  predicate Lossless(items: seq<Item>, due: seq<Ev>) {
    |items| == |due| && forall i :: 0 <= i < |due| ==> items[i] == Delivered(due[i])
  }

  /** What a subscription has been handed and has queued, against what was due:
      everything in order if no overflow touched it; otherwise part of it in
      order, with a notice unless a loss went unannounced. */
  predicate Told(n: Note, queue: seq<Item>) {
    && (!n.hit ==> Lossless(n.drained + queue, n.due))
    && (n.hit ==> Announced(n.drained + queue) || n.silent)
    && Subsequence(Real(n.drained + queue), n.due)
  }

  predicate DistinctIds(subs: seq<Sub>) {
    forall i, j :: 0 <= i < j < |subs| ==> subs[i].id != subs[j].id
  }

  predicate Bounded(subs: seq<Sub>, total: int) {
    && total == Sum(subs) && total <= MAX_GLOBAL
    && forall i :: 0 <= i < |subs| ==> |subs[i].queue| <= MAX_PER_SUBSCRIPTION
  }

  predicate Rooted(subs: seq<Sub>, regs: map<string, string>) {
    forall i :: 0 <= i < |subs| ==> subs[i].binding in regs
  }

  predicate AllTold(subs: seq<Sub>, notes: map<string, Note>) {
    forall i :: 0 <= i < |subs| ==> subs[i].id in notes && Told(notes[subs[i].id], subs[i].queue)
  }

  /** The window holds the last keys accepted, and no two keys that close together are equal. */
  predicate Windowed(seen: seq<Key>, accepted: seq<Key>) {
    && seen == accepted[if |accepted| > DEDUPE_WINDOW then |accepted| - DEDUPE_WINDOW else 0..]
    && forall i, j :: 0 <= i < j < |accepted| && accepted[i] == accepted[j] ==> j - i > DEDUPE_WINDOW
  }

  predicate Inv(s: State) {
    && DistinctIds(s.subs) && Bounded(s.subs, s.total) && Rooted(s.subs, s.regs) && AllTold(s.subs, s.notes)
    && Windowed(s.seen, s.accepted)
  }

  // ---------------------------------------------------------------- sums and subsequences

  lemma {:induction false} SumAt(subs: seq<Sub>, i: nat, sub: Sub)
    requires i < |subs|
    ensures Sum(subs[i := sub]) == Sum(subs) - |subs[i].queue| + |sub.queue|
  {
    if i > 0 {
      SumAt(subs[1..], i - 1, sub);
      assert subs[i := sub][1..] == subs[1..][i - 1 := sub];
    } else {
      assert subs[i := sub][1..] == subs[1..];
    }
  }

  lemma {:induction false} SumConcat(a: seq<Sub>, b: seq<Sub>)
    ensures Sum(a + b) == Sum(a) + Sum(b)
  {
    if a == [] {
      assert a + b == b;
    } else {
      assert (a + b)[1..] == a[1..] + b;
      SumConcat(a[1..], b);
    }
  }

  lemma {:induction false} NothingQueued(subs: seq<Sub>)
    requires FirstNonEmpty(subs) == |subs|
    ensures Sum(subs) == 0
  {
    if subs != [] {
      NothingQueued(subs[1..]);
    }
  }

  lemma {:induction false} SubsequenceSkips(a: seq<Ev>, b: seq<Ev>)
    requires Subsequence(a, b) && a != []
    ensures Subsequence(a[..|a| - 1], b)
    decreases |b|, 0
  {
    if a[|a| - 1] == b[|b| - 1] {
      var a', b' := a[..|a| - 1], b[..|b| - 1];
      SubsequenceGrows(a', b', b[|b| - 1]);
      assert b' + [b[|b| - 1]] == b;
    } else {
      SubsequenceSkips(a, b[..|b| - 1]);
      SubsequenceGrows(a[..|a| - 1], b[..|b| - 1], b[|b| - 1]);
      assert b[..|b| - 1] + [b[|b| - 1]] == b;
    }
  }

  /** More being due does not hurt. */
  lemma {:induction false} SubsequenceGrows(a: seq<Ev>, b: seq<Ev>, x: Ev)
    requires Subsequence(a, b)
    ensures Subsequence(a, b + [x])
    decreases |b|, 1
  {
    assert (b + [x])[..|b|] == b;
    if a != [] && a[|a| - 1] == x {
      SubsequenceSkips(a, b);
    }
  }

  lemma SubsequencePush(a: seq<Ev>, b: seq<Ev>, x: Ev)
    requires Subsequence(a, b)
    ensures Subsequence(a + [x], b + [x])
  {
    assert (a + [x])[..|a|] == a && (b + [x])[..|b|] == b;
  }

  /** Handing over less does not hurt. */
  lemma {:induction false} RealOfPrefix(a: seq<Item>, b: seq<Item>, due: seq<Ev>)
    requires Subsequence(Real(a + b), due)
    ensures Subsequence(Real(a), due)
    decreases |b|
  {
    if b == [] {
      assert a + b == a;
    } else {
      var init := b[..|b| - 1];
      assert (a + b)[..|a + b| - 1] == a + init;
      var r := Real(a + init);
      if b[|b| - 1].Delivered? {
        SubsequenceSkips(Real(a + b), due);
        assert (r + [b[|b| - 1].ev])[..|r|] == r;
      }
      RealOfPrefix(a, init, due);
    }
  }

  lemma RealAppend(items: seq<Item>, x: Item)
    ensures Real(items + [x]) == if x.Delivered? then Real(items) + [x.ev] else Real(items)
  {
    assert (items + [x])[..|items|] == items;
  }

  // ---------------------------------------------------------------- one subscription

  lemma LosslessPush(items: seq<Item>, due: seq<Ev>, ev: Ev)
    ensures Lossless(items, due) ==> Lossless(items + [Delivered(ev)], due + [ev])
  {
  }

  lemma ToldPush(n: Note, queue: seq<Item>, ev: Ev)
    requires Told(n, queue)
    ensures Told(n.(due := n.due + [ev]), queue + [Delivered(ev)])
  {
    var items := n.drained + queue;
    assert n.drained + (queue + [Delivered(ev)]) == items + [Delivered(ev)];
    RealAppend(items, Delivered(ev));
    SubsequencePush(Real(items), n.due, ev);
    LosslessPush(items, n.due, ev);
    assert Announced(items) ==> Announced(items + [Delivered(ev)]);
  }

  lemma ToldCollapse(n: Note, queue: seq<Item>, x: Item)
    requires Told(n, queue) && x.Resync?
    ensures Told(n.(hit := true), [x])
  {
    RealOfPrefix(n.drained, queue, n.due);
    RealAppend(n.drained, x);
    assert (n.drained + [x])[|n.drained|] == x;
    assert x in n.drained + [x];
  }

  /** An event more is due; the queue is about to be collapsed or the loss noted. */
  lemma ToldDue(n: Note, queue: seq<Item>, ev: Ev)
    requires Told(n, queue)
    ensures Told(n.(due := n.due + [ev], hit := true, silent := true), queue)
    ensures Subsequence(Real(n.drained + queue), n.due + [ev])
  {
    SubsequenceGrows(Real(n.drained + queue), n.due, ev);
  }

  lemma ToldCollapseDue(n: Note, queue: seq<Item>, ev: Ev, x: Item)
    requires Told(n, queue) && x.Resync?
    ensures Told(n.(due := n.due + [ev], hit := true), [x])
  {
    ToldCollapse(n, queue, x);
    SubsequenceGrows(Real(n.drained + [x]), n.due, ev);
  }

  lemma ToldPoll(n: Note, queue: seq<Item>, k: nat)
    requires Told(n, queue) && k <= |queue|
    ensures Told(n.(drained := n.drained + queue[..k]), queue[k..])
  {
    assert n.drained + queue[..k] + queue[k..] == n.drained + queue;
  }

  // ---------------------------------------------------------------- publishing keeps

  /** The core of the invariant that publishing works on. */
  predicate Sound(s: State) {
    DistinctIds(s.subs) && Bounded(s.subs, s.total) && AllTold(s.subs, s.notes)
  }

  /** The same subscriptions, but for their queues. */
  predicate SameSubs(a: seq<Sub>, b: seq<Sub>) {
    |a| == |b| && forall i :: 0 <= i < |a| ==> a[i].id == b[i].id && a[i].binding == b[i].binding && a[i].filter == b[i].filter
  }

  predicate OnlyQueues(s: State, t: State) {
    s.regs == t.regs && s.seen == t.seen && s.accepted == t.accepted && SameSubs(s.subs, t.subs)
  }

  lemma PushKeeps(s: State, i: nat, ev: Ev)
    requires Sound(s) && i < |s.subs| && |s.subs[i].queue| < MAX_PER_SUBSCRIPTION && s.total < MAX_GLOBAL
    ensures Sound(Push(Due(s, s.subs[i].id, ev), i, Delivered(ev)))
  {
    var sub := s.subs[i];
    SumAt(s.subs, i, sub.(queue := sub.queue + [Delivered(ev)]));
    ToldPush(s.notes[sub.id], sub.queue, ev);
  }

  lemma OverflowKeeps(s: State, i: nat, ev: Ev, x: Item)
    requires Sound(s) && i < |s.subs| && s.subs[i].queue != [] && x.Resync?
    ensures Sound(Collapse(Due(s, s.subs[i].id, ev), i, x))
  {
    var sub := s.subs[i];
    SumAt(s.subs, i, sub.(queue := [x]));
    ToldCollapseDue(s.notes[sub.id], sub.queue, ev, x);
  }

  lemma CollapseKeeps(s: State, f: nat, x: Item)
    requires Sound(s) && f < |s.subs| && s.subs[f].queue != [] && x.Resync?
    ensures Sound(Collapse(s, f, x))
  {
    var sub := s.subs[f];
    SumAt(s.subs, f, sub.(queue := [x]));
    ToldCollapse(s.notes[sub.id], sub.queue, x);
  }

  lemma DropKeeps(s: State, i: nat, ev: Ev)
    requires Sound(s) && i < |s.subs|
    ensures Sound(Dropped(Due(s, s.subs[i].id, ev), s.subs[i].id))
  {
    ToldDue(s.notes[s.subs[i].id], s.subs[i].queue, ev);
  }

  lemma MakeRoomKeeps(s: State, i: nat, ev: Ev)
    requires Sound(s) && i < |s.subs| && s.total >= MAX_GLOBAL
    ensures Sound(MakeRoom(Due(s, s.subs[i].id, ev), i, ev))
  {
    var f, x := FirstNonEmpty(s.subs), Resync(ev, "global_delivery_capacity");
    if f == |s.subs| {
      NothingQueued(s.subs);
      assert false;
    }
    if f == i {
      OverflowKeeps(s, i, ev, x);
    } else {
      DropKeeps(s, i, ev);
      CollapseKeeps(Dropped(Due(s, s.subs[i].id, ev), s.subs[i].id), f, x);
    }
  }

  lemma OfferKeeps(s: State, i: nat, ev: Ev)
    requires Sound(s) && i < |s.subs|
    ensures Sound(Offer(s, i, ev)) && OnlyQueues(s, Offer(s, i, ev))
  {
    OfferOnlyQueues(s, i, ev);
    if Wants(s.subs[i], ev) {
      if |s.subs[i].queue| >= MAX_PER_SUBSCRIPTION {
        OverflowKeeps(s, i, ev, Resync(ev, "delivery_capacity"));
      } else if s.total >= MAX_GLOBAL {
        MakeRoomKeeps(s, i, ev);
      } else {
        PushKeeps(s, i, ev);
      }
    }
  }

  lemma OfferOnlyQueues(s: State, i: nat, ev: Ev)
    requires i < |s.subs|
    ensures OnlyQueues(s, Offer(s, i, ev))
  {
    if Wants(s.subs[i], ev) && |s.subs[i].queue| < MAX_PER_SUBSCRIPTION && s.total >= MAX_GLOBAL {
      MakeRoomOnlyQueues(Due(s, s.subs[i].id, ev), i, ev);
    }
  }

  lemma MakeRoomOnlyQueues(s: State, i: nat, ev: Ev)
    requires i < |s.subs|
    ensures OnlyQueues(s, MakeRoom(s, i, ev))
  {
  }

  lemma {:induction false} OfferFromKeeps(s: State, i: nat, ev: Ev)
    requires Sound(s)
    ensures Sound(OfferFrom(s, i, ev)) && OnlyQueues(s, OfferFrom(s, i, ev))
    decreases |s.subs| - i
  {
    if i < |s.subs| {
      OfferKeeps(s, i, ev);
      OfferFromKeeps(Offer(s, i, ev), i + 1, ev);
    }
  }

  lemma RememberKeeps(seen: seq<Key>, accepted: seq<Key>, k: Key)
    requires Windowed(seen, accepted) && k !in seen
    ensures Windowed(Remember(seen, k), accepted + [k])
  {
    var more := accepted + [k];
    var from := if |accepted| > DEDUPE_WINDOW then |accepted| - DEDUPE_WINDOW else 0;
    assert forall j :: from <= j < |accepted| ==> accepted[j] in seen;
    assert seen + [k] == more[from..];
  }

  lemma PublishKeeps(s: State, binding: string, raw: Ev)
    requires Inv(s)
    ensures Inv(DoPublish(s, binding, raw))
  {
    if binding in s.regs && raw.nativeType != "" {
      var ev := raw.(binding := binding, epoch := s.regs[binding]);
      var key := Key(binding, ev.id);
      if key !in s.seen {
        RememberKeeps(s.seen, s.accepted, key);
        OfferFromKeeps(s.(seen := Remember(s.seen, key), accepted := s.accepted + [key]), 0, ev);
      }
    }
  }

  // ---------------------------------------------------------------- the other steps keep

  lemma SubscribeKeeps(s: State, id: string, binding: string, filter: Filter)
    requires Inv(s) && id !in s.notes
    ensures Inv(DoSubscribe(s, id, binding, filter))
  {
    var sub := Sub(id, binding, filter, []);
    SumConcat(s.subs, [sub]);
    assert [sub][1..] == [];
    assert Told(Note([], [], false, false), []);
  }

  lemma HandedKeeps(s: State, i: nat, n: nat)
    requires Inv(s) && i < |s.subs| && n <= |s.subs[i].queue|
    ensures Inv(Handed(s, i, n))
  {
    var sub := s.subs[i];
    var sub', note := sub.(queue := sub.queue[n..]), s.notes[sub.id].(drained := s.notes[sub.id].drained + sub.queue[..n]);
    SumAt(s.subs, i, sub');
    ToldPoll(s.notes[sub.id], sub.queue, n);
    AllToldAt(s.subs, s.notes, i, sub', note);
  }

  lemma PollKeeps(s: State, id: string, limit: Option<nat>)
    requires Inv(s)
    ensures Inv(DoPoll(s, id, limit))
  {
    var i := Find(s.subs, id);
    if i < |s.subs| {
      HandedKeeps(s, i, Taken(limit, s.subs[i].queue));
    }
  }

  lemma AllToldAt(subs: seq<Sub>, notes: map<string, Note>, i: nat, sub: Sub, n: Note)
    requires AllTold(subs, notes) && DistinctIds(subs) && i < |subs| && sub.id == subs[i].id && Told(n, sub.queue)
    ensures AllTold(subs[i := sub], notes[sub.id := n])
  {
    forall j | 0 <= j < |subs| && j != i ensures subs[j].id != sub.id {
      assert i < j || j < i;
    }
  }

  lemma UnsubscribeKeeps(s: State, id: string)
    requires Inv(s)
    ensures Inv(DoUnsubscribe(s, id))
  {
    var i := Find(s.subs, id);
    if i < |s.subs| {
      SumWithout(s.subs, i);
      RestKeeps(s.subs, i, s.subs[..i] + s.subs[i + 1..], s.regs, s.notes);
    }
  }

  predicate EachFine(subs: seq<Sub>, regs: map<string, string>, notes: map<string, Note>) {
    DistinctIds(subs) && Rooted(subs, regs) && AllTold(subs, notes) && forall i :: 0 <= i < |subs| ==> |subs[i].queue| <= MAX_PER_SUBSCRIPTION
  }

  lemma RestKeeps(subs: seq<Sub>, i: nat, rest: seq<Sub>, regs: map<string, string>, notes: map<string, Note>)
    requires i < |subs| && rest == subs[..i] + subs[i + 1..] && EachFine(subs, regs, notes)
    ensures EachFine(rest, regs, notes)
  {
    forall j | 0 <= j < |rest| ensures rest[j] == subs[if j < i then j else j + 1] {
    }
  }

  lemma SumWithout(subs: seq<Sub>, i: nat)
    requires i < |subs|
    ensures Sum(subs[..i] + subs[i + 1..]) == Sum(subs) - |subs[i].queue|
  {
    var a, x, b := subs[..i], [subs[i]], subs[i + 1..];
    assert subs == a + x + b && x[1..] == [];
    SumConcat(a + x, b);
    SumConcat(a, x);
    SumConcat(a, b);
  }

  lemma {:induction false} OthersOf(subs: seq<Sub>, binding: string)
    ensures Sum(Others(subs, binding)) + QueuedFor(subs, binding) == Sum(subs)
    ensures forall x :: x in Others(subs, binding) <==> x in subs && x.binding != binding
    ensures DistinctIds(subs) ==> DistinctIds(Others(subs, binding))
  {
    if subs != [] {
      OthersOf(subs[1..], binding);
      var rest := Others(subs[1..], binding);
      assert subs == [subs[0]] + subs[1..];
      if subs[0].binding != binding {
        assert Others(subs, binding)[1..] == rest;
        if DistinctIds(subs) {
          forall j | 0 <= j < |rest| ensures rest[j].id != subs[0].id {
            assert rest[j] in subs[1..];
            var k :| 0 <= k < |subs[1..]| && subs[1..][k] == rest[j];
            assert subs[k + 1] == rest[j];
          }
        }
      }
    }
  }

  lemma DisconnectKeeps(s: State, binding: string)
    requires Inv(s)
    ensures Inv(DoDisconnect(s, binding))
    ensures binding in s.regs ==> DoDisconnect(s, binding).regs == s.regs - {binding}
  {
    if binding in s.regs {
      var subs := Others(s.subs, binding);
      OthersOf(s.subs, binding);
      forall i | 0 <= i < |subs|
        ensures subs[i].binding in s.regs && subs[i].binding != binding && |subs[i].queue| <= MAX_PER_SUBSCRIPTION
        ensures subs[i].id in s.notes && Told(s.notes[subs[i].id], subs[i].queue)
      {
        assert subs[i] in s.subs;
      }
    }
  }

  lemma {:induction false} FailAllKeeps(s: State, bindings: seq<string>)
    requires Inv(s)
    ensures Inv(FailAll(s, bindings))
    ensures forall b :: b in FailAll(s, bindings).regs ==> b in s.regs && b !in bindings
    decreases |bindings|
  {
    if bindings != [] {
      DisconnectKeeps(s, bindings[0]);
      FailAllKeeps(DoDisconnect(s, bindings[0]), bindings[1..]);
    }
  }

  lemma RootedNeedsRoot(subs: seq<Sub>, regs: map<string, string>)
    ensures Rooted(subs, regs) && subs != [] ==> exists b :: b in regs
  {
    if Rooted(subs, regs) && subs != [] {
      assert subs[0].binding in regs;
    }
  }

  /** Closing leaves no subscription to clear: the counter is back at zero. */
  lemma CloseEmpties(s: State, bindings: seq<string>)
    requires Inv(s) && forall b :: b in s.regs ==> b in bindings
    ensures FailAll(s, bindings).subs == [] && DoClose(s, bindings).total == 0
    ensures Inv(DoClose(s, bindings))
  {
    var t := FailAll(s, bindings);
    FailAllKeeps(s, bindings);
    assert forall b :: b !in t.regs;
    RootedNeedsRoot(t.subs, t.regs);
  }

  lemma StepKeeps(s: State, e: Event)
    requires Inv(s) && Possible(s, e)
    ensures Inv(Step(s, e))
  {
    match e
    case Register(_, _) =>
    case Subscribe(id, binding, filter) => SubscribeKeeps(s, id, binding, filter);
    case Publish(binding, raw) => PublishKeeps(s, binding, raw);
    case Poll(id, limit) => PollKeeps(s, id, limit);
    case Unsubscribe(id) => UnsubscribeKeeps(s, id);
    case Disconnect(binding) => DisconnectKeeps(s, binding);
    case Close(bindings) => CloseEmpties(s, bindings);
  }

  lemma {:induction false} RunKeeps(s: State, es: seq<Event>)
    requires Inv(s) && AllPossible(s, es)
    ensures Inv(Run(s, es))
    decreases |es|
  {
    if es != [] {
      StepKeeps(s, es[0]);
      RunKeeps(Step(s, es[0]), es[1..]);
    }
  }

  // ---------------------------------------------------------------- the main results

  /** Accounting: after any run the counter is the sum of the queue lengths and
      within its bound, every queue is within its own, and every subscription's
      binding is registered. */
  lemma CounterIsExact(es: seq<Event>)
    requires AllPossible(Boot(), es)
    ensures var s := Run(Boot(), es);
      && s.total == Sum(s.subs) <= MAX_GLOBAL && Rooted(s.subs, s.regs)
      && forall i :: 0 <= i < |s.subs| ==> |s.subs[i].queue| <= MAX_PER_SUBSCRIPTION
  {
    RunKeeps(Boot(), es);
  }

  /** Delivery: a subscription no overflow touched has been handed and has queued
      exactly what was due, in order; any other has part of it, in order, and
      holds a notice unless it lost an event to the global bound. */
  lemma DeliveryIsFaithful(es: seq<Event>, i: nat)
    requires AllPossible(Boot(), es) && i < |Run(Boot(), es).subs|
    ensures var s := Run(Boot(), es);
      s.subs[i].id in s.notes && Told(s.notes[s.subs[i].id], s.subs[i].queue)
  {
    RunKeeps(Boot(), es);
  }

  /** Dedupe: two equal keys are accepted only more than a window apart. */
  lemma NoRepeatInWindow(es: seq<Event>, i: nat, j: nat)
    requires AllPossible(Boot(), es) && i < j < |Run(Boot(), es).accepted|
    requires Run(Boot(), es).accepted[i] == Run(Boot(), es).accepted[j]
    ensures j - i > DEDUPE_WINDOW
  {
    RunKeeps(Boot(), es);
  }

  predicate LastIsOf(queue: seq<Item>, ev: Ev) {
    queue != [] && queue[|queue| - 1].ev == ev
  }

  // One publish, in terms of the state before it.

  predicate Full(sub: Sub) {
    |sub.queue| >= MAX_PER_SUBSCRIPTION
  }

  /** The counter when it is subscription i's turn, if no one from `from` on met the global bound before. */
  function Load(subs: seq<Sub>, total: int, from: nat, i: nat, ev: Ev): int
    requires i <= |subs|
  {
    if i <= from then total
    else
      Load(subs, total, from, i - 1, ev) +
      if !Wants(subs[i - 1], ev) then 0 else if Full(subs[i - 1]) then 1 - |subs[i - 1].queue| else 1
  }

  /** The turn of subscription i finds the global bound reached and its own queue not full. */
  predicate Crowded(subs: seq<Sub>, total: int, from: nat, i: nat, ev: Ev) {
    from <= i < |subs| && Wants(subs[i], ev) && !Full(subs[i]) && Load(subs, total, from, i, ev) >= MAX_GLOBAL
  }

  /** The first turn from k on that is crowded, or the number of subscriptions. */
  function FirstCrowded(subs: seq<Sub>, total: int, from: nat, k: nat, ev: Ev): (i: nat)
    requires k <= |subs|
    ensures k <= i <= |subs| && (i < |subs| ==> Crowded(subs, total, from, i, ev))
    ensures forall j :: k <= j < i ==> !Crowded(subs, total, from, j, ev)
    decreases |subs| - k
  {
    if k == |subs| || Crowded(subs, total, from, k, ev) then k else FirstCrowded(subs, total, from, k + 1, ev)
  }

  /** The queue that gives way is the subscription's own. */
  predicate ClearsItself(subs: seq<Sub>, i: nat, ev: Ev) {
    i <= |subs| && FirstNonEmpty(subs) == i && forall j :: 0 <= j < i ==> !Wants(subs[j], ev)
  }

  /** A turn is crowded and another queue gives way; or the first crowded turn
      clears its own queue and a later turn is crowded again. */
  predicate Overloaded(subs: seq<Sub>, total: int, ev: Ev) {
    var i := FirstCrowded(subs, total, 0, 0, ev);
    i < |subs| && (ClearsItself(subs, i, ev) ==> FirstCrowded(subs, total - |subs[i].queue| + 1, i + 1, i + 1, ev) < |subs|)
  }

  predicate NewToAll(subs: seq<Sub>, ev: Ev) {
    forall i :: 0 <= i < |subs| ==> !LastIsOf(subs[i].queue, ev)
  }

  /** Turns before i have gone by without meeting the global bound. */
  predicate Quietly(s: State, subs: seq<Sub>, total: int, from: nat, i: nat, ev: Ev) {
    && from <= i <= |subs| && |s.subs| == |subs| && s.total == Load(subs, total, from, i, ev)
    && (forall j :: i <= j < |subs| ==> s.subs[j] == subs[j])
    && (forall j :: from <= j < i ==> s.subs[j] == Served(subs[j], ev))
  }

  /** What a turn leaves when the global bound is not met. */
  function Served(sub: Sub, ev: Ev): Sub {
    if !Wants(sub, ev) then sub
    else if Full(sub) then sub.(queue := [Resync(ev, "delivery_capacity")])
    else sub.(queue := sub.queue + [Delivered(ev)])
  }

  lemma QuietStep(s: State, subs: seq<Sub>, total: int, from: nat, i: nat, ev: Ev)
    requires Quietly(s, subs, total, from, i, ev) && i < |subs| && !Crowded(subs, total, from, i, ev)
    ensures Quietly(Offer(s, i, ev), subs, total, from, i + 1, ev)
    ensures forall j :: 0 <= j < |subs| && j != i ==> Offer(s, i, ev).subs[j] == s.subs[j]
  {
  }

  lemma {:induction false} QuietTurns(s: State, subs: seq<Sub>, total: int, from: nat, i: nat, until: nat, ev: Ev) returns (t: State)
    requires Quietly(s, subs, total, from, i, ev) && i <= until <= |subs|
    requires forall j :: i <= j < until ==> !Crowded(subs, total, from, j, ev)
    ensures Quietly(t, subs, total, from, until, ev) && OfferFrom(t, until, ev) == OfferFrom(s, i, ev)
    ensures forall j :: 0 <= j < from ==> t.subs[j] == s.subs[j]
    decreases until - i
  {
    t := s;
    if i < until {
      QuietStep(s, subs, total, from, i, ev);
      t := QuietTurns(Offer(s, i, ev), subs, total, from, i + 1, until, ev);
    }
  }

  lemma ServedHolds(sub: Sub, ev: Ev)
    ensures Wants(sub, ev) ==> LastIsOf(Served(sub, ev).queue, ev)
    ensures Served(sub, ev).queue == [] ==> sub.queue == [] && !Wants(sub, ev)
  {
  }

  /** Subscription j has lost the event and cannot be given a notice any more. */
  predicate Lost(s: State, j: nat, ev: Ev) {
    j < |s.subs| && !LastIsOf(s.subs[j].queue, ev) && FirstNonEmpty(s.subs) != j
  }

  lemma StaysNonEmpty(a: seq<Sub>, b: seq<Sub>, j: nat)
    requires |a| == |b| && j < |a| && a[j].queue == b[j].queue && FirstNonEmpty(a) != j
    requires forall k :: 0 <= k < |a| && a[k].queue != [] ==> b[k].queue != []
    ensures FirstNonEmpty(b) != j
  {
  }

  lemma LostStays(s: State, i: nat, j: nat, ev: Ev)
    requires Lost(s, j, ev) && i < |s.subs| && i != j
    ensures Lost(Offer(s, i, ev), j, ev)
  {
    var t := Offer(s, i, ev);
    OfferAt(s, i, j, ev);
    StaysNonEmpty(s.subs, t.subs, j);
  }

  lemma OfferAt(s: State, i: nat, j: nat, ev: Ev)
    requires i < |s.subs| && j < |s.subs| && FirstNonEmpty(s.subs) != j && i != j
    ensures var t := Offer(s, i, ev);
      && |t.subs| == |s.subs| && t.subs[j] == s.subs[j]
      && forall k :: 0 <= k < |s.subs| && s.subs[k].queue != [] ==> t.subs[k].queue != []
  {
    if Wants(s.subs[i], ev) && !Full(s.subs[i]) && s.total >= MAX_GLOBAL {
      MakeRoomAt(Due(s, s.subs[i].id, ev), i, j, ev);
    }
  }

  lemma MakeRoomAt(s: State, i: nat, j: nat, ev: Ev)
    requires i < |s.subs| && j < |s.subs| && FirstNonEmpty(s.subs) != j
    ensures var t := MakeRoom(s, i, ev);
      && |t.subs| == |s.subs| && t.subs[j] == s.subs[j]
      && forall k :: 0 <= k < |s.subs| && s.subs[k].queue != [] ==> t.subs[k].queue != []
  {
  }

  lemma {:induction false} LostForGood(s: State, i: nat, j: nat, ev: Ev)
    requires Lost(s, j, ev) && j < i
    ensures Lost(OfferFrom(s, i, ev), j, ev)
    decreases |s.subs| - i
  {
    if i < |s.subs| {
      LostStays(s, i, j, ev);
      OfferKeepsShape(s, i, ev);
      LostForGood(Offer(s, i, ev), i + 1, j, ev);
    }
  }

  /** A crowded turn whose own queue is not the one that gives way loses the event. */
  lemma CrowdedTurnLoses(s: State, i: nat, ev: Ev)
    requires i < |s.subs| && Wants(s.subs[i], ev) && !Full(s.subs[i]) && s.total >= MAX_GLOBAL
    requires FirstNonEmpty(s.subs) != i && !LastIsOf(s.subs[i].queue, ev)
    ensures Lost(Offer(s, i, ev), i, ev)
  {
    var t := Offer(s, i, ev);
    assert t.subs[i] == s.subs[i];
    StaysNonEmpty(s.subs, t.subs, i);
  }

  lemma CrowdedTurnKeeps(s: State, i: nat, ev: Ev)
    requires i < |s.subs| && Wants(s.subs[i], ev) && !Full(s.subs[i]) && s.total >= MAX_GLOBAL && FirstNonEmpty(s.subs) == i
    ensures var t := Offer(s, i, ev);
      && t.subs == s.subs[i := s.subs[i].(queue := [Resync(ev, "global_delivery_capacity")])]
      && t.total == s.total - |s.subs[i].queue| + 1
  {
  }

  predicate SomeoneLoses(subs: seq<Sub>, t: State, ev: Ev) {
    exists i :: 0 <= i < |subs| && |t.subs| == |subs| && Wants(subs[i], ev) && !LastIsOf(t.subs[i].queue, ev)
  }

  /** The state at the first crowded turn. */
  lemma ServedFirstNonEmpty(s: State, subs: seq<Sub>, total: int, i: nat, ev: Ev)
    requires Quietly(s, subs, total, 0, i, ev) && i < |subs|
    ensures FirstNonEmpty(s.subs) == i <==> ClearsItself(subs, i, ev) && subs[i].queue != []
  {
    forall j | 0 <= j < i ensures s.subs[j].queue == [] <==> subs[j].queue == [] && !Wants(subs[j], ev) {
      ServedHolds(subs[j], ev);
    }
    FirstIs(s.subs, i);
    FirstIs(subs, i);
  }

  lemma FirstIs(subs: seq<Sub>, i: nat)
    requires i < |subs|
    ensures FirstNonEmpty(subs) == i <==> subs[i].queue != [] && forall j :: 0 <= j < i ==> subs[j].queue == []
  {
  }

  lemma PublishQuiet(s: State, ev: Ev)
    requires FirstCrowded(s.subs, s.total, 0, 0, ev) == |s.subs|
    ensures var t := OfferFrom(s, 0, ev);
      && |t.subs| == |s.subs| && t.total == Load(s.subs, s.total, 0, |s.subs|, ev)
      && forall j :: 0 <= j < |s.subs| ==> t.subs[j] == Served(s.subs[j], ev)
  {
    var t := QuietTurns(s, s.subs, s.total, 0, 0, |s.subs|, ev);
  }

  /** The first crowded turn is past, and it cleared its own queue. */
  lemma AfterClearing(s: State, ev: Ev, i: nat) returns (t: State)
    requires NewToAll(s.subs, ev) && i == FirstCrowded(s.subs, s.total, 0, 0, ev) && i < |s.subs| && ClearsItself(s.subs, i, ev)
    ensures |t.subs| == |s.subs| && t.total == s.total - |s.subs[i].queue| + 1
    ensures LastIsOf(t.subs[i].queue, ev) && OfferFrom(t, i + 1, ev) == OfferFrom(s, 0, ev)
    ensures forall j :: i < j < |s.subs| ==> t.subs[j] == s.subs[j]
  {
    var u := QuietTurns(s, s.subs, s.total, 0, 0, i, ev);
    ServedFirstNonEmpty(u, s.subs, s.total, i, ev);
    LoadUnwanted(s.subs, s.total, i, ev);
    CrowdedTurnKeeps(u, i, ev);
    t := Offer(u, i, ev);
  }

  lemma {:induction false} LoadUnwanted(subs: seq<Sub>, total: int, i: nat, ev: Ev)
    requires i <= |subs| && forall j :: 0 <= j < i ==> !Wants(subs[j], ev)
    ensures Load(subs, total, 0, i, ev) == total
  {
    if i > 0 {
      LoadUnwanted(subs, total, i - 1, ev);
    }
  }

  /** Someone loses from turn i of state u on. */
  lemma TurnLoses(subs: seq<Sub>, u: State, i: nat, ev: Ev)
    requires |u.subs| == |subs| && i < |subs| && u.subs[i] == subs[i] && Wants(subs[i], ev) && !Full(subs[i])
    requires u.total >= MAX_GLOBAL && FirstNonEmpty(u.subs) != i && !LastIsOf(subs[i].queue, ev)
    ensures SomeoneLoses(subs, OfferFrom(u, i, ev), ev)
  {
    CrowdedTurnLoses(u, i, ev);
    LostForGood(Offer(u, i, ev), i + 1, i, ev);
    ShapeAlways(u, i, ev);
  }

  lemma ClearedThenLoses(s: State, ev: Ev, i: nat, k: nat)
    requires NewToAll(s.subs, ev) && i == FirstCrowded(s.subs, s.total, 0, 0, ev) && i < |s.subs| && ClearsItself(s.subs, i, ev)
    requires k == FirstCrowded(s.subs, s.total - |s.subs[i].queue| + 1, i + 1, i + 1, ev) && k < |s.subs|
    ensures SomeoneLoses(s.subs, OfferFrom(s, 0, ev), ev)
  {
    var t := AfterClearing(s, ev, i);
    var u := QuietTurns(t, s.subs, s.total - |s.subs[i].queue| + 1, i + 1, i + 1, k, ev);
    assert u.subs[i] == t.subs[i];
    FirstIs(u.subs, k);
    TurnLoses(s.subs, u, k, ev);
  }

  lemma OverloadLoses(s: State, ev: Ev)
    requires NewToAll(s.subs, ev) && Overloaded(s.subs, s.total, ev)
    ensures SomeoneLoses(s.subs, OfferFrom(s, 0, ev), ev)
  {
    var i := FirstCrowded(s.subs, s.total, 0, 0, ev);
    if ClearsItself(s.subs, i, ev) {
      ClearedThenLoses(s, ev, i, FirstCrowded(s.subs, s.total - |s.subs[i].queue| + 1, i + 1, i + 1, ev));
    } else {
      var u := QuietTurns(s, s.subs, s.total, 0, 0, i, ev);
      ServedFirstNonEmpty(u, s.subs, s.total, i, ev);
      TurnLoses(s.subs, u, i, ev);
    }
  }

  lemma {:induction false} ShapeAlways(s: State, i: nat, ev: Ev)
    ensures |OfferFrom(s, i, ev).subs| == |s.subs|
    decreases |s.subs| - i
  {
    if i < |s.subs| {
      OfferKeepsShape(s, i, ev);
      ShapeAlways(Offer(s, i, ev), i + 1, ev);
    }
  }

  lemma LoadSuffices(s: State, ev: Ev)
    requires NewToAll(s.subs, ev) && !Overloaded(s.subs, s.total, ev)
    ensures !SomeoneLoses(s.subs, OfferFrom(s, 0, ev), ev)
  {
    var i := FirstCrowded(s.subs, s.total, 0, 0, ev);
    if i == |s.subs| {
      PublishQuiet(s, ev);
      forall j | 0 <= j < |s.subs| && Wants(s.subs[j], ev) ensures LastIsOf(OfferFrom(s, 0, ev).subs[j].queue, ev) {
        ServedHolds(s.subs[j], ev);
      }
    } else {
      ClearingSuffices(s, ev, i);
    }
  }

  lemma ClearingSuffices(s: State, ev: Ev, i: nat)
    requires NewToAll(s.subs, ev) && i == FirstCrowded(s.subs, s.total, 0, 0, ev) && i < |s.subs| && ClearsItself(s.subs, i, ev)
    requires FirstCrowded(s.subs, s.total - |s.subs[i].queue| + 1, i + 1, i + 1, ev) == |s.subs|
    ensures !SomeoneLoses(s.subs, OfferFrom(s, 0, ev), ev)
  {
    var t := AfterClearing(s, ev, i);
    var u := QuietTurns(t, s.subs, s.total - |s.subs[i].queue| + 1, i + 1, i + 1, |s.subs|, ev);
    assert OfferFrom(u, |s.subs|, ev) == u;
    forall j | 0 <= j < |s.subs| && Wants(s.subs[j], ev) ensures LastIsOf(u.subs[j].queue, ev) {
      if j > i {
        ServedHolds(s.subs[j], ev);
      } else if j == i {
        assert u.subs[j] == t.subs[j];
      }
    }
  }

  /** Exactly when a publish loses its event silently for someone, in terms of the
      state before it: when it is overloaded.  Everyone else who wants the event
      ends up with it or with a notice for it. */
  lemma SilentLossIff(s: State, binding: string, raw: Ev, ev: Ev)
    requires Inv(s) && binding in s.regs && raw.nativeType != "" && ev == raw.(binding := binding, epoch := s.regs[binding])
    requires Key(binding, ev.id) !in s.seen && NewToAll(s.subs, ev)
    ensures SomeoneLoses(s.subs, DoPublish(s, binding, raw), ev) <==> Overloaded(s.subs, s.total, ev)
  {
    var key := Key(binding, ev.id);
    var start := s.(seen := Remember(s.seen, key), accepted := s.accepted + [key]);
    if Overloaded(s.subs, s.total, ev) {
      OverloadLoses(start, ev);
    } else {
      LoadSuffices(start, ev);
    }
  }

  /** What goes wrong then: the queue of the subscription that lost the event is
      unchanged, and a queue of another, which may not even want it, is cleared. */
  lemma GlobalOverflowHitsAnother(s: State, i: nat, ev: Ev)
    requires Inv(s) && i < |s.subs| && Wants(s.subs[i], ev) && |s.subs[i].queue| < MAX_PER_SUBSCRIPTION
    requires s.total >= MAX_GLOBAL && FirstNonEmpty(s.subs) != i
    ensures var f, t := FirstNonEmpty(s.subs), Offer(s, i, ev);
      f < |s.subs| && t.subs[i] == s.subs[i] && t.subs[f].queue == [Resync(ev, "global_delivery_capacity")]
  {
    if FirstNonEmpty(s.subs) == |s.subs| {
      NothingQueued(s.subs);
      assert false;
    }
  }

  // ---------------------------------------------------------------- a run that loses an event silently

  const ANY := Filter("", "", "", None)

  /** The n-th event of the run; its id has n characters. */
  function Nth(n: nat): Ev {
    Ev(seq(n, _ => 'x'), "b", "e", "t", None, None, "")
  }

  /** Five subscriptions to everything of one binding, n events queued for each. */
  predicate Level(s: State, n: nat) {
    && "b" in s.regs && s.regs["b"] == "e" && |s.subs| == 5 && s.total == 5 * n
    && (forall i :: 0 <= i < 5 ==> s.subs[i].binding == "b" && s.subs[i].filter == ANY && |s.subs[i].queue| == n)
    && (forall i :: 0 <= i < 5 && n > 0 ==> s.subs[i].queue[n - 1].ev == Nth(n - 1))
    && |s.seen| == n && (forall k :: k in s.seen ==> |k.id| < n)
  }

  lemma LoadLevel(s: State, n: nat, i: nat)
    requires Level(s, n) && i <= 5 && n < MAX_PER_SUBSCRIPTION
    ensures Load(s.subs, s.total, 0, i, Nth(n)) == 5 * n + i
  {
    if i > 0 {
      LoadLevel(s, n, i - 1);
      assert Wants(s.subs[i - 1], Nth(n));
    }
  }

  lemma LevelRises(s: State, n: nat)
    requires Level(s, n) && n < 51
    ensures Level(DoPublish(s, "b", Nth(n)), n + 1)
  {
    var ev := Nth(n);
    var start := s.(seen := Remember(s.seen, Key("b", ev.id)), accepted := s.accepted + [Key("b", ev.id)]);
    forall i | 0 <= i < 5 ensures !Crowded(start.subs, start.total, 0, i, ev) {
      LoadLevel(s, n, i);
    }
    LoadLevel(s, n, 5);
    PublishQuiet(start, ev);
    var t := OfferFrom(start, 0, ev);
    OfferFromOnlyQueues(start, 0, ev);
    assert forall i :: 0 <= i < 5 ==> t.subs[i] == s.subs[i].(queue := s.subs[i].queue + [Delivered(ev)]);
  }

  lemma {:induction false} OfferFromOnlyQueues(s: State, i: nat, ev: Ev)
    ensures OnlyQueues(s, OfferFrom(s, i, ev))
    decreases |s.subs| - i
  {
    if i < |s.subs| {
      OfferOnlyQueues(s, i, ev);
      OfferFromOnlyQueues(Offer(s, i, ev), i + 1, ev);
    }
  }

  lemma {:induction false} RunSnoc(s: State, es: seq<Event>, e: Event)
    ensures Run(s, es + [e]) == Step(Run(s, es), e) && (AllPossible(s, es + [e]) <==> AllPossible(s, es) && Possible(Run(s, es), e))
    decreases |es|
  {
    if es == [] {
      assert es + [e] == [e] && [e][1..] == [];
    } else {
      assert (es + [e])[1..] == es[1..] + [e] && (es + [e])[0] == es[0];
      RunSnoc(Step(s, es[0]), es[1..], e);
    }
  }

  lemma Subscribed() returns (es: seq<Event>)
    ensures AllPossible(Boot(), es) && Level(Run(Boot(), es), 0)
  {
    es := [Register("b", "e")];
    RunSnoc(Boot(), [], Register("b", "e"));
    assert [] + es == es;
    for n := 0 to 5
      invariant AllPossible(Boot(), es)
      invariant var s := Run(Boot(), es);
        && s.regs == map["b" := "e"] && |s.subs| == n && s.total == 0 && s.seen == []
        && (forall i :: 0 <= i < n ==> s.subs[i].binding == "b" && s.subs[i].filter == ANY && s.subs[i].queue == [])
        && (forall id :: id in s.notes ==> |id| < n)
    {
      var e := Subscribe(seq(n, _ => 'y'), "b", ANY);
      RunSnoc(Boot(), es, e);
      es := es + [e];
    }
  }

  lemma Filled(es: seq<Event>, n: nat) returns (fs: seq<Event>)
    requires AllPossible(Boot(), es) && Level(Run(Boot(), es), 0) && n <= 51
    ensures AllPossible(Boot(), fs) && Level(Run(Boot(), fs), n)
  {
    fs := es;
    for k := 0 to n
      invariant AllPossible(Boot(), fs) && Level(Run(Boot(), fs), k)
    {
      LevelRises(Run(Boot(), fs), k);
      RunSnoc(Boot(), fs, Publish("b", Nth(k)));
      fs := fs + [Publish("b", Nth(k))];
    }
  }

  /** A run from the start after which one more publish loses its event for a
      subscription that wants it, has room and gets no notice. */
  lemma SilentLossIsReachable() returns (es: seq<Event>)
    ensures AllPossible(Boot(), es + [Publish("b", Nth(51))])
    ensures SomeoneLoses(Run(Boot(), es).subs, Run(Boot(), es + [Publish("b", Nth(51))]), Nth(51))
  {
    es := Subscribed();
    es := Filled(es, 51);
    var s, ev := Run(Boot(), es), Nth(51);
    RunKeeps(Boot(), es);
    RunSnoc(Boot(), es, Publish("b", ev));
    LoadLevel(s, 51, 0);
    LoadLevel(s, 51, 1);
    assert !Crowded(s.subs, s.total, 0, 0, ev) && Crowded(s.subs, s.total, 0, 1, ev);
    assert FirstCrowded(s.subs, s.total, 0, 0, ev) == 1;
    assert Wants(s.subs[0], ev);
    SilentLossIff(s, "b", ev, ev);
  }

  // ---------------------------------------------------------------- the daemon itself

  class EventDaemon {
    var registrations: map<string, string>
    var subscriptions: seq<Sub>
    var seenEventIds: seq<Key>
    var globalQueuedEvents: int
    ghost var notes: map<string, Note>
    ghost var accepted: seq<Key>

    ghost function View(): State
      reads this
    {
      State(registrations, subscriptions, seenEventIds, globalQueuedEvents, notes, accepted)
    }

    constructor ()
      ensures View() == Boot()
    {
      registrations, subscriptions, seenEventIds, globalQueuedEvents := map[], [], [], 0;
      notes, accepted := map[], [];
    }

    method ReplaceQueue(i: nat, item: Item)
      requires i < |subscriptions|
      modifies this`subscriptions, this`globalQueuedEvents, this`notes
      ensures View() == Collapse(old(View()), i, item)
    {
      var sub := subscriptions[i];
      globalQueuedEvents := globalQueuedEvents - |sub.queue|;
      subscriptions := subscriptions[i := sub.(queue := [item])];
      globalQueuedEvents := globalQueuedEvents + 1;
      if sub.id in notes {
        notes := notes[sub.id := notes[sub.id].(hit := true)];
      }
    }

    /** Clear the first queue that holds anything. */
    method ClearFirst(i: nat, ev: Ev)
      requires i < |subscriptions|
      modifies this`subscriptions, this`globalQueuedEvents, this`notes
      ensures View() == MakeRoom(old(View()), i, ev)
    {
      var id := subscriptions[i].id;
      var f := 0;
      while f < |subscriptions| && subscriptions[f].queue == []
        invariant f <= |subscriptions| && subscriptions == old(subscriptions) && View() == old(View())
        invariant FirstNonEmpty(subscriptions) == f + FirstNonEmpty(subscriptions[f..])
      {
        assert subscriptions[f..][1..] == subscriptions[f + 1..];
        f := f + 1;
      }
      if f != i && id in notes {
        notes := notes[id := notes[id].(hit := true, silent := true)];
      }
      if f < |subscriptions| {
        ReplaceQueue(f, Resync(ev, "global_delivery_capacity"));
      }
    }

    method OfferTo(i: nat, ev: Ev)
      requires i < |subscriptions|
      modifies this`subscriptions, this`globalQueuedEvents, this`notes
      ensures View() == Offer(old(View()), i, ev)
    {
      var sub := subscriptions[i];
      if sub.binding != ev.binding || !EventMatches(sub.filter, ev) {
        return;
      }
      if sub.id in notes {
        notes := notes[sub.id := notes[sub.id].(due := notes[sub.id].due + [ev])];
      }
      if |sub.queue| >= MAX_PER_SUBSCRIPTION {
        ReplaceQueue(i, Resync(ev, "delivery_capacity"));
      } else if globalQueuedEvents >= MAX_GLOBAL {
        ClearFirst(i, ev);
      } else {
        subscriptions := subscriptions[i := sub.(queue := sub.queue + [Delivered(ev)])];
        globalQueuedEvents := globalQueuedEvents + 1;
      }
    }

    method PublishEvent(binding: string, raw: Ev)
      modifies this
      ensures View() == DoPublish(old(View()), binding, raw)
    {
      if binding !in registrations || raw.nativeType == "" {
        return;
      }
      var ev := raw.(binding := binding, epoch := registrations[binding]);
      var key := Key(binding, ev.id);
      if key in seenEventIds {
        return;
      }
      seenEventIds := seenEventIds + [key];
      if |seenEventIds| > DEDUPE_WINDOW {
        seenEventIds := seenEventIds[|seenEventIds| - DEDUPE_WINDOW..];
      }
      accepted := accepted + [key];
      ghost var start := View();
      var i := 0;
      while i < |subscriptions|
        invariant OfferFrom(View(), i, ev) == OfferFrom(start, 0, ev)
        decreases |subscriptions| - i
      {
        OfferKeepsShape(View(), i, ev);
        OfferTo(i, ev);
        i := i + 1;
      }
    }

    method EventsSubscribe(id: string, binding: string, filter: Filter) returns (ok: bool)
      modifies this`subscriptions, this`notes
      ensures ok == (binding in registrations) && View() == DoSubscribe(old(View()), id, binding, filter)
    {
      if binding !in registrations {
        return false;
      }
      subscriptions := subscriptions + [Sub(id, binding, filter, [])];
      notes := notes[id := Note([], [], false, false)];
      return true;
    }

    method EventsPoll(id: string, limit: Option<nat>) returns (events: Option<seq<Item>>)
      modifies this`subscriptions, this`globalQueuedEvents, this`notes
      ensures View() == DoPoll(old(View()), id, limit)
      ensures events.Some? <==> Find(old(subscriptions), id) < |old(subscriptions)|
      ensures events.Some? ==> var q := old(subscriptions)[Find(old(subscriptions), id)].queue; events.value == q[..Taken(limit, q)]
    {
      var i := Find(subscriptions, id);
      if i == |subscriptions| {
        return None;
      }
      var sub := subscriptions[i];
      var take := Taken(limit, sub.queue);
      var taken := sub.queue[..take];
      subscriptions := subscriptions[i := sub.(queue := sub.queue[take..])];
      globalQueuedEvents := globalQueuedEvents - |taken|;
      if id in notes {
        notes := notes[id := notes[id].(drained := notes[id].drained + taken)];
      }
      return Some(taken);
    }

    method EventsUnsubscribe(id: string) returns (removed: bool)
      modifies this`subscriptions, this`globalQueuedEvents
      ensures View() == DoUnsubscribe(old(View()), id)
      ensures removed <==> Find(old(subscriptions), id) < |old(subscriptions)|
    {
      var i := Find(subscriptions, id);
      if i == |subscriptions| {
        return false;
      }
      globalQueuedEvents := globalQueuedEvents - |subscriptions[i].queue|;
      subscriptions := subscriptions[..i] + subscriptions[i + 1..];
      return true;
    }

    method FailRegistration(binding: string)
      modifies this`registrations, this`subscriptions, this`globalQueuedEvents
      ensures View() == DoDisconnect(old(View()), binding)
    {
      if binding !in registrations {
        return;
      }
      registrations := registrations - {binding};
      var kept: seq<Sub>, i := [], 0;
      while i < |subscriptions|
        invariant i <= |subscriptions| && subscriptions == old(subscriptions)
        invariant kept + Others(subscriptions[i..], binding) == Others(subscriptions, binding)
        invariant globalQueuedEvents - QueuedFor(subscriptions[i..], binding) == old(globalQueuedEvents) - QueuedFor(subscriptions, binding)
        invariant registrations == old(registrations) - {binding} && seenEventIds == old(seenEventIds) && notes == old(notes) && accepted == old(accepted)
      {
        assert subscriptions[i..][1..] == subscriptions[i + 1..];
        if subscriptions[i].binding == binding {
          globalQueuedEvents := globalQueuedEvents - |subscriptions[i].queue|;
        } else {
          kept := kept + [subscriptions[i]];
        }
        i := i + 1;
      }
      subscriptions := kept;
    }
  }
}
