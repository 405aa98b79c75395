/** The authorization server read off from what was asked and answered: whether a
    request is granted depends on earlier answers alone - those that the provider
    still knows of, since a restart forgets what was not written.
 */
module OAuthHistory {
  import opened OAuthGrants

  /** A request with its time and the answer it got. */
  datatype Asked = Asked(now: int, q: Request, r: Response)

  /** The requests behind the memory, behind each write under way, and behind the state file. */
  datatype Past = Past(mem: seq<Asked>, writes: seq<seq<Asked>>, disk: seq<Asked>)

  /** The answers that wait for a write. */
  predicate Waits(q: Request, r: Response) {
    r.Registered? || r.Redirect? || r.Issued? || q.Revoke?
  }

  function Reply(cfg: Config, es: seq<Event>, now: int, q: Request): Response {
    Do(cfg, Run(cfg, Boot(), es).mem, now, q).response
  }

  function PastOf(cfg: Config, es: seq<Event>): Past {
    if es == [] then Past([], [], [])
    else
      var init, e := es[..|es| - 1], es[|es| - 1];
      var p := PastOf(cfg, init);
      match e
      case Ask(now, q) =>
        var r := Reply(cfg, init, now, q);
        var mem := p.mem + [Asked(now, q, r)];
        p.(mem := mem, writes := if Waits(q, r) then p.writes + [mem] else p.writes)
      case WriteDone => if p.writes == [] then p else p.(writes := p.writes[1..], disk := p.writes[0])
      case Restart(_) => p.(mem := p.disk, writes := [])
  }

  // ---------------------------------------------------------------- what the answers have issued

  /** Entry i is an authorization answered with this code. */
  predicate GivesCode(past: seq<Asked>, i: nat, code: string) {
    i < |past| && past[i].q.Authorize? && past[i].r.Redirect? && past[i].q.code == code
  }

  /** Since entry i the code has not been redeemed. */
  predicate NotRedeemed(past: seq<Asked>, i: nat, code: string) {
    forall j :: i < j < |past| && past[j].q.Redeem? && past[j].q.code == code ==> !past[j].r.Issued?
  }

  /** Entry i was answered with this token. */
  predicate GivesToken(past: seq<Asked>, i: nat, token: string, kind: Kind) {
    i < |past| && past[i].r.Issued? && (past[i].q.Redeem? || past[i].q.Renew?)
    && token == if kind == Access then past[i].q.access else past[i].q.refresh
  }

  /** Since entry i the token has been neither exchanged nor revoked. */
  predicate NotUsed(past: seq<Asked>, i: nat, token: string) {
    forall j :: i < j < |past| ==>
      && (past[j].q.Renew? && past[j].q.token == token ==> !past[j].r.Issued?)
      && !(past[j].q.Revoke? && past[j].q.token == token)
  }

  /** The scopes an authorization grants: those asked for, or all, as far as the server offers them. */
  function Granted(cfg: Config, q: Request): seq<string>
    requires q.Authorize?
  {
    Kept(if q.scopes.Some? then q.scopes.value else cfg.scopes, cfg.scopes)
  }

  // ---------------------------------------------------------------- the store the answers add up to

  function CodeFor(cfg: Config, a: Asked): Code
    requires a.q.Authorize?
  {
    Code(a.q.client.id, a.q.challenge, a.q.redirectUri, Granted(cfg, a.q), a.q.resource, a.now + CODE_TTL)
  }

  /** The resource tokens are for: the one asked for, or that of what they are exchanged for. */
  function ResourceFor(s: Store, a: Asked): Option<string> {
    match a.q
    case Redeem(_, code, _, _, resource, _, _) => if resource.Some? then resource else if code in s.codes then s.codes[code].resource else None
    case Renew(_, token, _, resource, _, _) => if resource.Some? then resource else if token in s.tokens then s.tokens[token].resource else None
    case _ => None
  }

  function TokenFor(cfg: Config, s: Store, a: Asked, kind: Kind): Token
    requires (a.q.Redeem? || a.q.Renew?) && a.r.Issued?
  {
    Token(a.q.client.id, a.r.scopes, ResourceFor(s, a), a.now + (if kind == Access then AccessTtl(cfg) else REFRESH_TTL), kind)
  }

  function With(cfg: Config, s: Store, a: Asked): Store {
    match a.q
    case Register(_, id, _) => if a.r.Registered? then s.(clients := s.clients[id := a.r.client]) else s
    case Authorize(_, _, _, _, _, code) => if a.r.Redirect? then s.(codes := s.codes[code := CodeFor(cfg, a)]) else s
    case Redeem(_, code, _, _, _, access, refresh) =>
      if a.r.Issued? then
        s.(codes := s.codes - {code}, tokens := s.tokens[access := TokenFor(cfg, s, a, Access)][refresh := TokenFor(cfg, s, a, Refresh)])
      else s
    case Renew(_, token, _, _, access, refresh) =>
      if a.r.Issued? then
        s.(tokens := (s.tokens - {token})[access := TokenFor(cfg, s, a, Access)][refresh := TokenFor(cfg, s, a, Refresh)])
      else s
    case Revoke(token) => s.(tokens := s.tokens - {token})
    case _ => s
  }

  function Rebuilt(cfg: Config, past: seq<Asked>): Store {
    if past == [] then EMPTY else With(cfg, Rebuilt(cfg, past[..|past| - 1]), past[|past| - 1])
  }

  lemma RebuiltSnoc(cfg: Config, past: seq<Asked>, a: Asked)
    ensures Rebuilt(cfg, past + [a]) == With(cfg, Rebuilt(cfg, past), a)
  {
    assert (past + [a])[..|past|] == past;
  }

  // ---------------------------------------------------------------- the provider keeps to it

  /** The store without some codes and tokens and with two new tokens. */
  function Exchanged(s: Store, codes: set<string>, tokens: set<string>, access: string, refresh: string, x: Token, y: Token): Store {
    s.(codes := s.codes - codes, tokens := (s.tokens - tokens)[access := x][refresh := y])
  }

  lemma SameExchange(t: int, s: Store, b: Store, codes: set<string>, tokens: set<string>, access: string, refresh: string, x: Token, y: Token)
    requires SameSince(t, s, b)
    ensures SameSince(t, Exchanged(s, codes, tokens, access, refresh, x, y), Exchanged(b, codes, tokens, access, refresh, x, y))
  {
  }

  /** Redeeming and renewing exchange in the same way in the store and in what the answers add up to. */
  lemma RedeemExchanges(cfg: Config, s: Store, b: Store, now: int, q: Request, a: Asked)
    requires q.Redeem? && a == Asked(now, q, Do(cfg, s, now, q).response) && a.r.Issued?
    requires q.code in b.codes && q.code in s.codes && b.codes[q.code] == s.codes[q.code]
    ensures var x, y := TokenFor(cfg, b, a, Access), TokenFor(cfg, b, a, Refresh);
      && Do(cfg, s, now, q).store == Exchanged(s, {q.code}, {}, q.access, q.refresh, x, y)
      && With(cfg, b, a) == Exchanged(b, {q.code}, {}, q.access, q.refresh, x, y)
  {
    assert s.tokens - {} == s.tokens && b.tokens - {} == b.tokens;
  }

  lemma RenewExchanges(cfg: Config, s: Store, b: Store, now: int, q: Request, a: Asked)
    requires q.Renew? && a == Asked(now, q, Do(cfg, s, now, q).response) && a.r.Issued?
    requires q.token in b.tokens && q.token in s.tokens && b.tokens[q.token] == s.tokens[q.token]
    ensures var x, y := TokenFor(cfg, b, a, Access), TokenFor(cfg, b, a, Refresh);
      && Do(cfg, s, now, q).store == Exchanged(s, {}, {q.token}, q.access, q.refresh, x, y)
      && With(cfg, b, a) == Exchanged(b, {}, {q.token}, q.access, q.refresh, x, y)
  {
    assert s.codes - {} == s.codes && b.codes - {} == b.codes;
  }

  /** An exchange that was answered was of something still good. */
  lemma IssuedFrom(cfg: Config, s: Store, now: int, q: Request)
    requires (q.Redeem? || q.Renew?) && Do(cfg, s, now, q).response.Issued?
    ensures q.Redeem? ==> q.code in s.codes && s.codes[q.code].expiresAt > now
    ensures q.Renew? ==> q.token in s.tokens && s.tokens[q.token].expiresAt > now
  {
  }

  lemma RefusedUnchanged(cfg: Config, s: Store, b: Store, now: int, q: Request, a: Asked)
    requires (q.Redeem? || q.Renew?) && a == Asked(now, q, Do(cfg, s, now, q).response) && !a.r.Issued?
    ensures Do(cfg, s, now, q).store == s && With(cfg, b, a) == b
  {
  }

  lemma ExchangeMatches(cfg: Config, t: int, s: Store, b: Store, now: int, q: Request, a: Asked)
    requires SameSince(t, s, b) && t <= now && (q.Redeem? || q.Renew?) && a == Asked(now, q, Do(cfg, s, now, q).response)
    ensures SameSince(t, Do(cfg, s, now, q).store, With(cfg, b, a))
  {
    if !a.r.Issued? {
      RefusedUnchanged(cfg, s, b, now, q, a);
    } else {
      IssuedFrom(cfg, s, now, q);
      var x, y := TokenFor(cfg, b, a, Access), TokenFor(cfg, b, a, Refresh);
      if q.Redeem? {
        RedeemExchanges(cfg, s, b, now, q, a);
        SameExchange(t, s, b, {q.code}, {}, q.access, q.refresh, x, y);
      } else {
        RenewExchanges(cfg, s, b, now, q, a);
        SameExchange(t, s, b, {}, {q.token}, q.access, q.refresh, x, y);
      }
    }
  }

  lemma PlainMatches(cfg: Config, t: int, s: Store, b: Store, now: int, q: Request)
    requires SameSince(t, s, b) && t <= now && !q.Redeem? && !q.Renew?
    ensures var o := Do(cfg, s, now, q); SameSince(t, o.store, With(cfg, b, Asked(now, q, o.response)))
  {
  }

  lemma WritesWait(cfg: Config, s: Store, now: int, q: Request)
    ensures var o := Do(cfg, s, now, q); o.written == Waits(q, o.response)
  {
  }

  lemma AskMatches(cfg: Config, t: int, s: Store, b: Store, now: int, q: Request)
    requires SameSince(t, s, b) && t <= now
    ensures var o := Do(cfg, s, now, q);
      SameSince(now, o.store, With(cfg, b, Asked(now, q, o.response))) && o.written == Waits(q, o.response)
  {
    var o := Do(cfg, s, now, q);
    WritesWait(cfg, s, now, q);
    if q.Redeem? || q.Renew? {
      ExchangeMatches(cfg, t, s, b, now, q, Asked(now, q, o.response));
    } else {
      PlainMatches(cfg, t, s, b, now, q);
    }
    SameLater(t, now, o.store, With(cfg, b, Asked(now, q, o.response)));
  }

  ghost predicate AllMatch(cfg: Config, sys: System, p: Past) {
    && SameSince(sys.clock, sys.mem, Rebuilt(cfg, p.mem)) && SameSince(sys.clock, sys.disk, Rebuilt(cfg, p.disk))
    && |p.writes| == |sys.pending|
    && forall i :: 0 <= i < |sys.pending| ==> SameSince(sys.clock, sys.pending[i].snapshot, Rebuilt(cfg, p.writes[i]))
  }

  lemma {:induction false} RunSnoc(cfg: Config, sys: System, es: seq<Event>, e: Event)
    ensures Run(cfg, sys, es + [e]) == Step(cfg, Run(cfg, sys, es), e)
    ensures AllPossible(cfg, sys, es + [e]) <==> AllPossible(cfg, sys, es) && Possible(Run(cfg, sys, es), e)
    decreases |es|
  {
    if es == [] {
      assert es + [e] == [e] && [e][1..] == [];
    } else {
      assert (es + [e])[1..] == es[1..] + [e] && (es + [e])[0] == es[0];
      RunSnoc(cfg, Step(cfg, sys, es[0]), es[1..], e);
    }
  }

  lemma LaterMatch(cfg: Config, sys: System, p: Past, now: int)
    requires AllMatch(cfg, sys, p) && sys.clock <= now
    ensures AllMatch(cfg, sys.(clock := now), p)
  {
    SameLater(sys.clock, now, sys.mem, Rebuilt(cfg, p.mem));
    SameLater(sys.clock, now, sys.disk, Rebuilt(cfg, p.disk));
    forall i | 0 <= i < |sys.pending| ensures SameSince(now, sys.pending[i].snapshot, Rebuilt(cfg, p.writes[i])) {
      SameLater(sys.clock, now, sys.pending[i].snapshot, Rebuilt(cfg, p.writes[i]));
    }
  }

  lemma AskAllMatch(cfg: Config, sys: System, p: Past, now: int, q: Request)
    requires AllMatch(cfg, sys, p) && sys.clock <= now
    ensures var r := Do(cfg, sys.mem, now, q).response;
      var mem := p.mem + [Asked(now, q, r)];
      AllMatch(cfg, DoAsk(cfg, sys, now, q), p.(mem := mem, writes := if Waits(q, r) then p.writes + [mem] else p.writes))
  {
    var o := Do(cfg, sys.mem, now, q);
    AskMatches(cfg, sys.clock, sys.mem, Rebuilt(cfg, p.mem), now, q);
    RebuiltSnoc(cfg, p.mem, Asked(now, q, o.response));
    LaterMatch(cfg, sys, p, now);
  }

  lemma RestartAllMatch(cfg: Config, sys: System, p: Past, now: int)
    requires AllMatch(cfg, sys, p) && sys.clock <= now
    ensures AllMatch(cfg, Step(cfg, sys, Restart(now)), p.(mem := p.disk, writes := []))
  {
    LaterMatch(cfg, sys, p, now);
    ReloadSame(sys.disk, Rebuilt(cfg, p.disk), now);
  }

  lemma {:induction false} AlwaysMatch(cfg: Config, es: seq<Event>)
    requires AllPossible(cfg, Boot(), es)
    ensures AllMatch(cfg, Run(cfg, Boot(), es), PastOf(cfg, es))
    decreases |es|
  {
    if es != [] {
      var init, e := es[..|es| - 1], es[|es| - 1];
      assert es == init + [e];
      RunSnoc(cfg, Boot(), init, e);
      AlwaysMatch(cfg, init);
      var sys, p := Run(cfg, Boot(), init), PastOf(cfg, init);
      match e
      case Ask(now, q) => AskAllMatch(cfg, sys, p, now, q);
      case WriteDone =>
      case Restart(now) => RestartAllMatch(cfg, sys, p, now);
    }
  }

  // ---------------------------------------------------------------- names are given once

  function NamesIn(a: Asked): set<string> {
    if a.q.Authorize? && a.r.Redirect? then {a.q.code}
    else if (a.q.Redeem? || a.q.Renew?) && a.r.Issued? then {a.q.access, a.q.refresh}
    else {}
  }

  ghost predicate Fresh(past: seq<Asked>) {
    && (forall i, j, x :: 0 <= i < j < |past| && x in NamesIn(past[i]) ==> x !in NamesIn(past[j]))
    && (forall i :: 0 <= i < |past| && (past[i].q.Redeem? || past[i].q.Renew?) && past[i].r.Issued? ==> past[i].q.access != past[i].q.refresh)
  }

  ghost predicate Known(grant: map<string, string>, past: seq<Asked>) {
    forall i, x :: 0 <= i < |past| && x in NamesIn(past[i]) ==> x in grant
  }

  ghost predicate AllFresh(grant: map<string, string>, p: Past) {
    && Fresh(p.mem) && Known(grant, p.mem) && Fresh(p.disk) && Known(grant, p.disk)
    && forall i :: 0 <= i < |p.writes| ==> Fresh(p.writes[i]) && Known(grant, p.writes[i])
  }

  lemma AskNames(cfg: Config, grant: map<string, string>, allowance: map<string, seq<string>>, s: Store, now: int, q: Request)
    requires Linear(grant, allowance, s) && NewTo(grant, q) && allowance.Keys <= grant.Keys
    ensures var o := Do(cfg, s, now, q);
      && Extends(grant, GrantAfter(grant, q, o))
      && forall x :: x in NamesIn(Asked(now, q, o.response)) ==> x in NewNames(q) && x in GrantAfter(grant, q, o) && x !in grant
  {
    GrantsGrow(cfg, grant, allowance, s, now, q);
  }

  lemma FreshSnoc(grant: map<string, string>, grant': map<string, string>, past: seq<Asked>, a: Asked)
    requires Fresh(past) && Known(grant, past) && Extends(grant, grant')
    requires forall x :: x in NamesIn(a) ==> x in grant' && x !in grant
    requires (a.q.Redeem? || a.q.Renew?) ==> a.q.access != a.q.refresh
    ensures Fresh(past + [a]) && Known(grant', past + [a])
  {
  }

  lemma KnownGrows(grant: map<string, string>, grant': map<string, string>, p: Past)
    requires AllFresh(grant, p) && Extends(grant, grant')
    ensures AllFresh(grant', p)
  {
  }

  lemma AskFresh(cfg: Config, sys: System, p: Past, now: int, q: Request, a: Asked, mem: seq<Asked>, waits: bool)
    requires Ok(sys) && Possible(sys, Ask(now, q)) && AllFresh(sys.grant, p)
    requires a == Asked(now, q, Do(cfg, sys.mem, now, q).response) && mem == p.mem + [a]
    ensures AllFresh(DoAsk(cfg, sys, now, q).grant, p.(mem := mem, writes := if waits then p.writes + [mem] else p.writes))
  {
    var grant' := DoAsk(cfg, sys, now, q).grant;
    AskNames(cfg, sys.grant, sys.allowance, sys.mem, now, q);
    FreshSnoc(sys.grant, grant', p.mem, a);
    KnownGrows(sys.grant, grant', p);
  }

  lemma {:induction false} AlwaysFresh(cfg: Config, es: seq<Event>)
    requires AllPossible(cfg, Boot(), es)
    ensures AllFresh(Run(cfg, Boot(), es).grant, PastOf(cfg, es))
    decreases |es|
  {
    if es != [] {
      var init, e := es[..|es| - 1], es[|es| - 1];
      assert es == init + [e];
      RunSnoc(cfg, Boot(), init, e);
      AlwaysFresh(cfg, init);
      var sys, p := Run(cfg, Boot(), init), PastOf(cfg, init);
      if e.Ask? {
        RunKeeps(cfg, Boot(), init);
        var a := Asked(e.now, e.q, Reply(cfg, init, e.now, e.q));
        AskFresh(cfg, sys, p, e.now, e.q, a, p.mem + [a], Waits(e.q, a.r));
      }
    }
  }

  // ---------------------------------------------------------------- codes and tokens from the answers

  /** The entry that gave a code which is still good for redemption. */
  predicate CodeFrom(past: seq<Asked>, i: nat, code: string) {
    GivesCode(past, i, code) && NotRedeemed(past, i, code)
  }

  predicate TokenFrom(past: seq<Asked>, i: nat, token: string, kind: Kind) {
    GivesToken(past, i, token, kind) && NotUsed(past, i, token)
  }

  lemma CodeFromSnoc(past: seq<Asked>, a: Asked, code: string)
    requires Fresh(past + [a])
    ensures forall i :: 0 <= i < |past| ==> (CodeFrom(past + [a], i, code) <==>
      CodeFrom(past, i, code) && !Spends(a, code))
    ensures CodeFrom(past + [a], |past|, code) <==> GivesCode([a], 0, code)
  {
    var all := past + [a];
    forall i | 0 <= i < |past|
      ensures CodeFrom(all, i, code) <==> CodeFrom(past, i, code) && !Spends(a, code)
    {
      assert all[i] == past[i] && all[|past|] == a;
      assert forall j :: 0 <= j < |past| ==> all[j] == past[j];
    }
  }

  /** What the store the answers add up to holds under one code. */
  ghost predicate CodeIs(cfg: Config, past: seq<Asked>, codes: map<string, Code>, code: string) {
    && (code in codes <==> exists i :: 0 <= i < |past| && CodeFrom(past, i, code))
    && (forall i :: 0 <= i < |past| && CodeFrom(past, i, code) ==> code in codes && codes[code] == CodeFor(cfg, past[i]))
  }

  lemma NewCodeIs(cfg: Config, past: seq<Asked>, a: Asked, code: string)
    requires Fresh(past + [a]) && GivesCode([a], 0, code)
    ensures CodeIs(cfg, past + [a], With(cfg, Rebuilt(cfg, past), a).codes, code)
  {
    var all := past + [a];
    assert all[|past|] == a && code in NamesIn(all[|past|]);
    CodeFromSnoc(past, a, code);
    forall i | 0 <= i < |past| ensures !CodeFrom(all, i, code) {
      var names := NamesIn(all[i]);
      assert GivesCode(all, i, code) ==> code in names;
    }
    assert CodeFrom(all, |past|, code);
  }

  predicate Spends(a: Asked, code: string) {
    a.q.Redeem? && a.q.code == code && a.r.Issued?
  }

  /** Redeeming takes a code away, and an answer that does not give it leaves it alone. */
  lemma CodeAfter(cfg: Config, s: Store, a: Asked, code: string)
    requires !GivesCode([a], 0, code)
    ensures var codes := With(cfg, s, a).codes;
      && (code in codes <==> code in s.codes && !Spends(a, code))
      && (code in codes ==> codes[code] == s.codes[code])
  {
  }

  lemma OldCodeIs(cfg: Config, past: seq<Asked>, a: Asked, codes: map<string, Code>, later: map<string, Code>, code: string)
    requires Fresh(past + [a]) && !GivesCode([a], 0, code) && CodeIs(cfg, past, codes, code)
    requires code in later <==> code in codes && !Spends(a, code)
    requires code in later ==> later[code] == codes[code]
    ensures CodeIs(cfg, past + [a], later, code)
  {
    var all := past + [a];
    CodeFromSnoc(past, a, code);
    assert forall i :: 0 <= i < |past| ==> all[i] == past[i];
  }

  lemma {:induction false} CodeIff(cfg: Config, past: seq<Asked>, code: string)
    requires Fresh(past)
    ensures CodeIs(cfg, past, Rebuilt(cfg, past).codes, code)
    decreases |past|
  {
    if past != [] {
      var init, a := past[..|past| - 1], past[|past| - 1];
      assert past == init + [a];
      CodeIff(cfg, init, code);
      if GivesCode([a], 0, code) {
        NewCodeIs(cfg, init, a, code);
      } else {
        CodeAfter(cfg, Rebuilt(cfg, init), a, code);
        OldCodeIs(cfg, init, a, Rebuilt(cfg, init).codes, Rebuilt(cfg, past).codes, code);
      }
    }
  }

  predicate Uses(a: Asked, token: string) {
    (a.q.Renew? && a.q.token == token && a.r.Issued?) || (a.q.Revoke? && a.q.token == token)
  }

  lemma TokenFromSnoc(past: seq<Asked>, a: Asked, token: string, kind: Kind)
    ensures forall i :: 0 <= i < |past| ==> (TokenFrom(past + [a], i, token, kind) <==> TokenFrom(past, i, token, kind) && !Uses(a, token))
    ensures TokenFrom(past + [a], |past|, token, kind) <==> GivesToken([a], 0, token, kind)
  {
    var all := past + [a];
    forall i | 0 <= i < |past|
      ensures TokenFrom(all, i, token, kind) <==> TokenFrom(past, i, token, kind) && !Uses(a, token)
    {
      assert all[i] == past[i] && all[|past|] == a;
      assert forall j :: 0 <= j < |past| ==> all[j] == past[j];
    }
  }

  /** The token record that entry i leads to. */
  function TokenAt(cfg: Config, past: seq<Asked>, i: nat, kind: Kind): Token
    requires i < |past| && (past[i].q.Redeem? || past[i].q.Renew?) && past[i].r.Issued?
  {
    TokenFor(cfg, Rebuilt(cfg, past[..i]), past[i], kind)
  }

  /** Some entry gave this token, and it is neither exchanged nor revoked since. */
  ghost predicate TokenHeld(past: seq<Asked>, token: string) {
    exists i, kind :: 0 <= i < |past| && TokenFrom(past, i, token, kind)
  }

  lemma GivenOnce(past: seq<Asked>, a: Asked, token: string, kind: Kind)
    requires Fresh(past + [a]) && GivesToken([a], 0, token, kind)
    ensures forall i, k :: 0 <= i < |past| ==> !TokenFrom(past + [a], i, token, k)
    ensures forall k :: TokenFrom(past + [a], |past|, token, k) ==> k == kind
  {
    var all := past + [a];
    assert all[|past|] == a && token in NamesIn(all[|past|]);
    forall i, k | 0 <= i < |past| ensures !TokenFrom(all, i, token, k) {
      var names := NamesIn(all[i]);
      assert GivesToken(all, i, token, k) ==> token in names;
    }
  }

  /** What the store the answers add up to holds under one name. */
  ghost predicate TokenIs(cfg: Config, past: seq<Asked>, tokens: map<string, Token>, token: string) {
    && (token in tokens <==> TokenHeld(past, token))
    && (forall i, kind :: 0 <= i < |past| && TokenFrom(past, i, token, kind) ==> token in tokens && tokens[token] == TokenAt(cfg, past, i, kind))
  }

  lemma {:induction false} TokenIff(cfg: Config, past: seq<Asked>, token: string)
    requires Fresh(past)
    ensures TokenIs(cfg, past, Rebuilt(cfg, past).tokens, token)
    decreases |past|
  {
    if past != [] {
      var init, a := past[..|past| - 1], past[|past| - 1];
      assert past == init + [a];
      TokenIff(cfg, init, token);
      if GivesToken([a], 0, token, Access) {
        NewTokenIs(cfg, init, a, token, Access);
      } else if GivesToken([a], 0, token, Refresh) {
        NewTokenIs(cfg, init, a, token, Refresh);
      } else {
        OldTokenIs(cfg, init, a, token);
      }
    }
  }

  lemma NewTokenIs(cfg: Config, past: seq<Asked>, a: Asked, token: string, kind: Kind)
    requires Fresh(past + [a]) && GivesToken([a], 0, token, kind)
    ensures TokenIs(cfg, past + [a], With(cfg, Rebuilt(cfg, past), a).tokens, token)
  {
    var all := past + [a];
    assert all[|past|] == a && all[..|past|] == past;
    GivenOnce(past, a, token, kind);
    TokenFromSnoc(past, a, token, kind);
    assert TokenFrom(all, |past|, token, kind);
    assert a.q.access != a.q.refresh;
  }

  lemma OldTokenIs(cfg: Config, past: seq<Asked>, a: Asked, token: string)
    requires TokenIs(cfg, past, Rebuilt(cfg, past).tokens, token)
    requires !GivesToken([a], 0, token, Access) && !GivesToken([a], 0, token, Refresh)
    ensures TokenIs(cfg, past + [a], With(cfg, Rebuilt(cfg, past), a).tokens, token)
  {
    var all, before := past + [a], Rebuilt(cfg, past).tokens;
    var after := With(cfg, Rebuilt(cfg, past), a).tokens;
    KeptUnlessUsed(cfg, Rebuilt(cfg, past), a, token);
    TokenFromSnoc(past, a, token, Access);
    TokenFromSnoc(past, a, token, Refresh);
    forall i, kind | 0 <= i < |all| && TokenFrom(all, i, token, kind)
      ensures i < |past| && TokenFrom(past, i, token, kind) && !Uses(a, token) && TokenAt(cfg, all, i, kind) == TokenAt(cfg, past, i, kind)
    {
      assert i < |past|;
      assert all[..i] == past[..i] && all[i] == past[i];
    }
    if TokenHeld(past, token) && !Uses(a, token) {
      var i, kind :| 0 <= i < |past| && TokenFrom(past, i, token, kind);
      assert TokenFrom(all, i, token, kind);
    }
  }

  lemma KeptUnlessUsed(cfg: Config, s: Store, a: Asked, token: string)
    requires !GivesToken([a], 0, token, Access) && !GivesToken([a], 0, token, Refresh)
    ensures var t := With(cfg, s, a).tokens;
      (token in t <==> token in s.tokens && !Uses(a, token)) && (token in t ==> t[token] == s.tokens[token])
  {
  }

  // ---------------------------------------------------------------- the answers

  /** Entry i is the authorization that lets this redemption through. */
  predicate Redeems(cfg: Config, past: seq<Asked>, i: nat, now: int, q: Request)
    requires q.Redeem?
  {
    && CodeFrom(past, i, q.code) && past[i].q.client.id == q.client.id && now < past[i].now + CODE_TTL
    && q.verifier != "" && cfg.digest(q.verifier) == past[i].q.challenge
    && (q.redirect.Some? && q.redirect.value != "" ==> q.redirect.value == past[i].q.redirectUri)
  }

  /** A code is redeemed if and only if an authorization for that client gave it,
      less than five minutes ago, it has not been redeemed since, the verifier's
      digest is the challenge, and a redirect URI given is the authorized one;
      the tokens then have the scopes that were granted. */
  lemma RedeemIff(cfg: Config, es: seq<Event>, now: int, q: Request)
    requires AllPossible(cfg, Boot(), es) && Run(cfg, Boot(), es).clock <= now && q.Redeem?
    ensures var past, r := PastOf(cfg, es).mem, Reply(cfg, es, now, q);
      && (r.Issued? <==> exists i :: 0 <= i < |past| && Redeems(cfg, past, i, now, q))
      && (forall i :: 0 <= i < |past| && Redeems(cfg, past, i, now, q) ==>
            r == Issued(q.access, q.refresh, Granted(cfg, past[i].q), AccessTtl(cfg) / 1000))
  {
    var sys, past := Run(cfg, Boot(), es), PastOf(cfg, es).mem;
    AlwaysMatch(cfg, es);
    AlwaysFresh(cfg, es);
    CodeIff(cfg, past, q.code);
    RedeemFrom(cfg, sys.clock, sys.mem, past, now, q);
  }

  lemma RedeemFrom(cfg: Config, t: int, s: Store, past: seq<Asked>, now: int, q: Request)
    requires SameSince(t, s, Rebuilt(cfg, past)) && t <= now && q.Redeem?
    requires q.code in Rebuilt(cfg, past).codes <==> exists i :: 0 <= i < |past| && CodeFrom(past, i, q.code)
    requires forall i :: 0 <= i < |past| && CodeFrom(past, i, q.code) ==>
      q.code in Rebuilt(cfg, past).codes && Rebuilt(cfg, past).codes[q.code] == CodeFor(cfg, past[i])
    ensures var r := Do(cfg, s, now, q).response;
      && (r.Issued? <==> exists i :: 0 <= i < |past| && Redeems(cfg, past, i, now, q))
      && (forall i :: 0 <= i < |past| && Redeems(cfg, past, i, now, q) ==>
            r == Issued(q.access, q.refresh, Granted(cfg, past[i].q), AccessTtl(cfg) / 1000))
  {
    var b, r := Rebuilt(cfg, past), Do(cfg, s, now, q).response;
    if r.Issued? {
      assert q.code in b.codes && b.codes[q.code] == s.codes[q.code];
      var i :| 0 <= i < |past| && CodeFrom(past, i, q.code);
      assert Redeems(cfg, past, i, now, q);
    }
    forall i | 0 <= i < |past| && Redeems(cfg, past, i, now, q)
      ensures r == Issued(q.access, q.refresh, Granted(cfg, past[i].q), AccessTtl(cfg) / 1000)
    {
      assert b.codes[q.code] == CodeFor(cfg, past[i]);
      assert q.code in s.codes && s.codes[q.code] == b.codes[q.code];
    }
  }

  /** Entry i is the exchange that gave the refresh token this renewal uses. */
  predicate Renews(past: seq<Asked>, i: nat, now: int, q: Request)
    requires q.Renew?
  {
    TokenFrom(past, i, q.token, Refresh) && past[i].q.client.id == q.client.id && now < past[i].now + REFRESH_TTL
  }

  /** A refresh token is exchanged if and only if it was given, as one, to that
      client, less than thirty days ago, and has been neither exchanged nor
      revoked since; the new tokens have its scopes, narrowed as asked. */
  lemma RenewIff(cfg: Config, es: seq<Event>, now: int, q: Request)
    requires AllPossible(cfg, Boot(), es) && Run(cfg, Boot(), es).clock <= now && q.Renew?
    ensures var past, r := PastOf(cfg, es).mem, Reply(cfg, es, now, q);
      && (r.Issued? <==> exists i :: 0 <= i < |past| && Renews(past, i, now, q))
      && (forall i :: 0 <= i < |past| && Renews(past, i, now, q) ==>
            r == Issued(q.access, q.refresh, Narrowed(cfg, q.scopes, past[i].r.scopes), AccessTtl(cfg) / 1000))
  {
    var sys, past := Run(cfg, Boot(), es), PastOf(cfg, es).mem;
    AlwaysMatch(cfg, es);
    AlwaysFresh(cfg, es);
    TokenIff(cfg, past, q.token);
    RenewFrom(cfg, sys.clock, sys.mem, past, now, q);
  }

  lemma RenewFrom(cfg: Config, t: int, s: Store, past: seq<Asked>, now: int, q: Request)
    requires SameSince(t, s, Rebuilt(cfg, past)) && t <= now && q.Renew? && TokenIs(cfg, past, Rebuilt(cfg, past).tokens, q.token)
    ensures var r := Do(cfg, s, now, q).response;
      && (r.Issued? <==> exists i :: 0 <= i < |past| && Renews(past, i, now, q))
      && (forall i :: 0 <= i < |past| && Renews(past, i, now, q) ==>
            r == Issued(q.access, q.refresh, Narrowed(cfg, q.scopes, past[i].r.scopes), AccessTtl(cfg) / 1000))
  {
    var b, r := Rebuilt(cfg, past), Do(cfg, s, now, q).response;
    if r.Issued? {
      assert q.token in b.tokens && b.tokens[q.token] == s.tokens[q.token];
      var i, kind :| 0 <= i < |past| && TokenFrom(past, i, q.token, kind);
      assert kind == Refresh && Renews(past, i, now, q);
    }
    forall i | 0 <= i < |past| && Renews(past, i, now, q)
      ensures r == Issued(q.access, q.refresh, Narrowed(cfg, q.scopes, past[i].r.scopes), AccessTtl(cfg) / 1000)
    {
      assert b.tokens[q.token] == TokenAt(cfg, past, i, Refresh);
      assert q.token in s.tokens && s.tokens[q.token] == b.tokens[q.token];
    }
  }

  /** Entry i is the exchange that gave this access token. */
  predicate Vouches(cfg: Config, past: seq<Asked>, i: nat, now: int, token: string) {
    TokenFrom(past, i, token, Access) && now < past[i].now + AccessTtl(cfg)
  }

  /** An access token is accepted if and only if it was given as one, has not
      expired and has not been revoked; what is told of it is what it was given for. */
  lemma VerifyIff(cfg: Config, es: seq<Event>, now: int, token: string)
    requires AllPossible(cfg, Boot(), es) && Run(cfg, Boot(), es).clock <= now
    ensures var past, r := PastOf(cfg, es).mem, Reply(cfg, es, now, Verify(token));
      && (r.Info? <==> exists i :: 0 <= i < |past| && Vouches(cfg, past, i, now, token))
      && (forall i :: 0 <= i < |past| && Vouches(cfg, past, i, now, token) ==>
            r == Info(past[i].q.client.id, past[i].r.scopes, ResourceFor(Rebuilt(cfg, past[..i]), past[i]), (past[i].now + AccessTtl(cfg)) / 1000))
  {
    var sys, past := Run(cfg, Boot(), es), PastOf(cfg, es).mem;
    AlwaysMatch(cfg, es);
    AlwaysFresh(cfg, es);
    TokenIff(cfg, past, token);
    VerifyFrom(cfg, sys.clock, sys.mem, past, now, token);
  }

  lemma VerifyFrom(cfg: Config, t: int, s: Store, past: seq<Asked>, now: int, token: string)
    requires SameSince(t, s, Rebuilt(cfg, past)) && t <= now && TokenIs(cfg, past, Rebuilt(cfg, past).tokens, token)
    ensures var r := DoVerify(s, now, token);
      && (r.Info? <==> exists i :: 0 <= i < |past| && Vouches(cfg, past, i, now, token))
      && (forall i :: 0 <= i < |past| && Vouches(cfg, past, i, now, token) ==>
            r == Info(past[i].q.client.id, past[i].r.scopes, ResourceFor(Rebuilt(cfg, past[..i]), past[i]), (past[i].now + AccessTtl(cfg)) / 1000))
  {
    var b, r := Rebuilt(cfg, past), DoVerify(s, now, token);
    if r.Info? {
      assert token in b.tokens && b.tokens[token] == s.tokens[token];
      var i, kind :| 0 <= i < |past| && TokenFrom(past, i, token, kind);
      assert kind == Access && Vouches(cfg, past, i, now, token);
    }
    forall i | 0 <= i < |past| && Vouches(cfg, past, i, now, token)
      ensures r == Info(past[i].q.client.id, past[i].r.scopes, ResourceFor(Rebuilt(cfg, past[..i]), past[i]), (past[i].now + AccessTtl(cfg)) / 1000)
    {
      assert b.tokens[token] == TokenAt(cfg, past, i, Access);
      assert token in s.tokens && s.tokens[token] == b.tokens[token];
    }
  }

  /** An authorization is answered with its code if and only if the redirect URI is
      one of the client's and there is a challenge; the challenge of a code is
      told as long as it could be redeemed. */
  lemma AuthorizeIff(cfg: Config, es: seq<Event>, now: int, q: Request)
    requires q.Authorize?
    ensures Reply(cfg, es, now, q) == if q.redirectUri in q.client.redirectUris && q.challenge != "" then Redirect(q.code) else Failed
  {
  }

  lemma ChallengeIff(cfg: Config, es: seq<Event>, now: int, code: string)
    requires AllPossible(cfg, Boot(), es) && Run(cfg, Boot(), es).clock <= now
    ensures var past, r := PastOf(cfg, es).mem, Reply(cfg, es, now, AskChallenge(code));
      && (r.Challenge? <==> exists i :: 0 <= i < |past| && CodeFrom(past, i, code) && now < past[i].now + CODE_TTL)
      && (forall i :: 0 <= i < |past| && CodeFrom(past, i, code) && now < past[i].now + CODE_TTL ==> r == Challenge(past[i].q.challenge))
  {
    var sys, past := Run(cfg, Boot(), es), PastOf(cfg, es).mem;
    AlwaysMatch(cfg, es);
    AlwaysFresh(cfg, es);
    CodeIff(cfg, past, code);
    var b, r := Rebuilt(cfg, past), DoAskChallenge(sys.mem, now, code);
    if r.Challenge? {
      assert code in b.codes && b.codes[code] == sys.mem.codes[code];
    }
    forall i | 0 <= i < |past| && CodeFrom(past, i, code) && now < past[i].now + CODE_TTL ensures r == Challenge(past[i].q.challenge) {
      assert code in sys.mem.codes && sys.mem.codes[code] == b.codes[code];
    }
  }

  /** A client that was registered is found as it was registered, without its secret once that has expired. */
  lemma ClientIff(cfg: Config, es: seq<Event>, now: int, id: string)
    requires AllPossible(cfg, Boot(), es)
    ensures var clients, r := Rebuilt(cfg, PastOf(cfg, es).mem).clients, Reply(cfg, es, now, GetClient(id));
      && (r == Found(None) <==> id !in clients)
      && (id in clients ==> r == Found(Some(if 0 != clients[id].secretExpiresAt < now / 1000 then clients[id].(secret := None) else clients[id])))
  {
    AlwaysMatch(cfg, es);
  }

  lemma {:induction false} DistinctIs(xs: seq<string>)
    ensures (forall x :: x in Distinct(xs) <==> x in xs) && |Distinct(xs)| == |set x | x in xs|
    ensures forall i, j :: 0 <= i < j < |Distinct(xs)| ==> Distinct(xs)[i] != Distinct(xs)[j]
  {
    if xs != [] {
      var init, last := xs[..|xs| - 1], xs[|xs| - 1];
      assert xs == init + [last];
      DistinctIs(init);
      assert (set x | x in xs) == (set x | x in init) + {last};
      assert last in init <==> last in (set x | x in init);
    }
  }

  /** A client is registered if and only if it names one to eight different redirect
      URIs, all acceptable; it gets exactly those, an identity and a secret. */
  lemma RegisterIff(cfg: Config, es: seq<Event>, now: int, q: Request)
    requires q.Register?
    ensures var r := Reply(cfg, es, now, q);
      && (r.Registered? <==> 1 <= |set u | u in q.uris| <= 8 && forall u :: u in q.uris ==> cfg.allowed(u))
      && (r.Registered? ==>
            && r.client.id == q.clientId && r.client.secret == Some(q.clientSecret) && r.client.secretExpiresAt == now / 1000 + SECRET_TTL_SECONDS
            && forall u :: u in r.client.redirectUris <==> u in q.uris)
  {
    DistinctIs(q.uris);
  }
}
