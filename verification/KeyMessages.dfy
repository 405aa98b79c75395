/** What a message leads to, and which pointer moves are merged, stated on the
    messages themselves.
 */
module KeyMessages {
  import opened KeyReader

  // ---------------------------------------------------------------- dispatching one message

  /** A mouse event of a known kind and button. */
  predicate KnownMouse(e: Mouse) {
    && (e.kind == "press" || e.kind == "release" || e.kind == "move" || e.kind == "drag" || e.kind == "click" || e.kind == "wheel")
    && (e.button == "left" || e.button == "middle" || e.button == "right" || e.button == "none")
  }

  /** A message for this host is a cancellation, an input or a mouse event; anything
      else, and any message for another host, leads to nothing. */
  lemma DispatchIff(cfg: Config, m: Msg, data: string, e: Mouse)
    requires m.Msg?
    ensures Act(cfg, m) == Some(Cancel) <==> m.id == Some(cfg.id) && m.op == "cancel"
    ensures Act(cfg, m) == Some(Input(data)) <==> m.id == Some(cfg.id) && m.op == "input" && m.data == Some(data)
    ensures Act(cfg, m) == Some(Pointer(e)) <==> m.id == Some(cfg.id) && m.op == "mouse" && m.event == Some(e) && KnownMouse(e)
  {
    assert "cancel"[0] == 'c' && "input"[0] == 'i' && "mouse"[0] == 'm';
  }

  // ---------------------------------------------------------------- merging moves

  /** The two messages are pointer moves with the same id. */
  predicate SameBurst(m: Msg, n: Msg) {
    && m.Msg? && n.Msg? && m.id == n.id && m.op == "mouse" && n.op == "mouse"
    && m.event.Some? && n.event.Some? && KnownMouse(m.event.value) && KnownMouse(n.event.value)
    && m.event.value.kind == "move" && n.event.value.kind == "move"
  }

  lemma MergesIff(m: Msg, n: Msg)
    ensures Merges(m, n) <==> SameBurst(m, n)
  {
  }

  /** Messages of which each merges with the next. */
  predicate Burst(ms: seq<Msg>) {
    ms != [] && forall i :: 0 <= i < |ms| - 1 ==> SameBurst(ms[i], ms[i + 1])
  }

  /** Of a burst only the last message is left. */
  lemma {:induction false} BurstLeavesLast(ms: seq<Msg>)
    requires Burst(ms)
    ensures Surviving(ms) == [ms[|ms| - 1]]
  {
    if |ms| == 1 {
      assert ms[1..] == [];
    } else {
      MergesIff(ms[0], ms[1]);
      assert forall i :: 0 <= i < |ms[1..]| ==> ms[1..][i] == ms[i + 1];
      BurstLeavesLast(ms[1..]);
    }
  }

  /** Where two neighbours do not merge, the messages before and behind are merged apart. */
  lemma {:induction false} MergedApart(a: seq<Msg>, b: seq<Msg>)
    requires a != [] && b != [] && !SameBurst(a[|a| - 1], b[0])
    ensures Surviving(a + b) == Surviving(a) + Surviving(b)
    decreases |a|
  {
    var all, rest := a + b, a[1..];
    assert all[1..] == rest + b;
    if rest == [] {
      MergesIff(a[0], b[0]);
      assert rest + b == b && Surviving(rest) == [];
    } else {
      assert all[1] == rest[0] && rest[|rest| - 1] == a[|a| - 1];
      MergedApart(rest, b);
      MergesIff(a[0], a[1]);
      if !Merges(a[0], a[1]) {
        assert [a[0]] + (Surviving(rest) + Surviving(b)) == [a[0]] + Surviving(rest) + Surviving(b);
      }
    }
  }

  // ---------------------------------------------------------------- how far the messages are played

  /** The dispatches the messages call for, whatever closes the host. */
  function Calls(cfg: Config, ms: seq<Msg>): seq<Dispatch>
    requires NoNull(ms)
  {
    if ms == [] then []
    else
      var last := ms[|ms| - 1];
      assert last in ms;
      var before := Calls(cfg, ms[..|ms| - 1]);
      if Act(cfg, last).None? then before else before + [Act(cfg, last).value]
  }

  /** The host closes at this message: it cancels this host, or the host answers
      what it calls for by closing. */
  predicate ClosesAt(cfg: Config, ms: seq<Msg>, i: nat)
    requires NoNull(ms) && i < |ms|
  {
    assert ms[i] in ms;
    || (ms[i].id == Some(cfg.id) && ms[i].op == "cancel")
    || (Act(cfg, ms[i]).Some? && cfg.closes(Calls(cfg, ms[..i]), Act(cfg, ms[i]).value))
  }

  /** Played up to the first message that closes the host, and that one included. */
  ghost predicate PlayedAs(cfg: Config, ms: seq<Msg>, p: Played)
    requires NoNull(ms)
  {
    && (p.closed <==> exists i :: 0 <= i < |ms| && ClosesAt(cfg, ms, i))
    && (!p.closed ==> p.out == Calls(cfg, ms))
    && forall i :: 0 <= i < |ms| && ClosesAt(cfg, ms, i) && (forall j :: 0 <= j < i ==> !ClosesAt(cfg, ms, j)) ==>
         p.out == Calls(cfg, ms[..i + 1])
  }

  lemma ClosesAtFront(cfg: Config, ms: seq<Msg>, n: nat, i: nat)
    requires NoNull(ms) && i < n <= |ms|
    ensures ClosesAt(cfg, ms[..n], i) == ClosesAt(cfg, ms, i)
  {
    assert ms[..n][..i] == ms[..i];
  }

  lemma PlayLast(cfg: Config, ms: seq<Msg>, n: nat)
    requires NoNull(ms) && n == |ms| - 1
    ensures Play(cfg, Calls(cfg, ms[..n]), [ms[n]]) == Played(Calls(cfg, ms), ClosesAt(cfg, ms, n))
  {
    assert ms[n] in ms;
    PlayOne(cfg, Calls(cfg, ms[..n]), ms[n], []);
    assert [ms[n]] + [] == [ms[n]];
    DispatchIff(cfg, ms[n], "", Mouse("", "", [], 0));
  }

  lemma {:induction false} PlaysToTheClose(cfg: Config, ms: seq<Msg>)
    requires NoNull(ms)
    ensures PlayedAs(cfg, ms, Play(cfg, [], ms))
    decreases |ms|
  {
    if ms != [] {
      var n := |ms| - 1;
      var init, last := ms[..n], ms[n];
      assert init + [last] == ms && last in ms;
      PlaysToTheClose(cfg, init);
      PlayConcat(cfg, [], init, [last]);
      forall i | 0 <= i < n ensures ClosesAt(cfg, init, i) == ClosesAt(cfg, ms, i) && init[..i + 1] == ms[..i + 1] {
        ClosesAtFront(cfg, ms, n, i);
      }
      assert ms[..n + 1] == ms;
      PlayLast(cfg, ms, n);
      assert Play(cfg, [], ms) == if Play(cfg, [], init).closed then Play(cfg, [], init) else Play(cfg, Calls(cfg, init), [last]);
      assert (exists i :: 0 <= i < |ms| && ClosesAt(cfg, ms, i)) <==> ClosesAt(cfg, ms, n) || exists i :: 0 <= i < n && ClosesAt(cfg, init, i);
    }
  }

  /** Over every run, the host has closed exactly when a message it heard cancels it or
      leads to something it answers by closing; up to the first such message it has
      been handed what the messages call for, and nothing behind it. */
  lemma HostClosesIff(cfg: Config, file: Bytes, es: seq<Event>, r: Reader)
    requires r == Run(cfg, System(file, Fresh()), es).reader
    ensures NoNull(Heard(r.polls)) && PlayedAs(cfg, Heard(r.polls), Played(r.out, r.closed))
  {
    PollingMergesOnlyMoves(cfg, file, es);
    HeardIsMerged(r.polls);
    PlaysToTheClose(cfg, Heard(r.polls));
  }
}
