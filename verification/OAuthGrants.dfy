/** The daemon's authorization server: codes are exchanged for tokens, refresh
    tokens for new tokens, and every change is written to a state file that a
    restart reads back.

    Requests, finished writes and restarts are the events of a run.  A request
    that changes something is answered only when its write has finished; a
    restart loses what is not written.  `System.grant` is an observer's note of
    the authorization each name stems from, `System.redeemed` of the codes and
    refresh tokens whose redemption was answered.
 */
module OAuthGrants {

  datatype Option<T> = None | Some(value: T)

  const DEFAULT_ACCESS_TTL_SECONDS: int := 3600
  const REFRESH_TTL: int := 30 * 24 * 60 * 60 * 1000
  const CODE_TTL: int := 5 * 60 * 1000
  const SECRET_TTL_SECONDS: int := 30 * 24 * 60 * 60

  datatype Client = Client(id: string, redirectUris: seq<string>, secret: Option<string>, secretExpiresAt: int)

  datatype Code = Code(clientId: string, challenge: string, redirectUri: string, scopes: seq<string>, resource: Option<string>, expiresAt: int)

  datatype Kind = Access | Refresh
  datatype Token = Token(clientId: string, scopes: seq<string>, resource: Option<string>, expiresAt: int, kind: Kind)

  datatype Store = Store(clients: map<string, Client>, codes: map<string, Code>, tokens: map<string, Token>)

  /** Scopes the server offers, the digest of a verifier, which redirect URIs
      are acceptable, and the configured lifetime of access tokens. */
  datatype Config = Config(scopes: seq<string>, digest: string -> string, allowed: string -> bool, ttlSeconds: Option<int>)

  function AccessTtl(cfg: Config): int {
    var s := if cfg.ttlSeconds.Some? then cfg.ttlSeconds.value else DEFAULT_ACCESS_TTL_SECONDS;
    (if s < 60 then 60 else s) * 1000
  }

  /** Requests carry the names that the server draws at random for them. */
  datatype Request =
    | Register(uris: seq<string>, clientId: string, clientSecret: string)
    | GetClient(clientId: string)
    | Authorize(client: Client, redirectUri: string, challenge: string, scopes: Option<seq<string>>, resource: Option<string>, code: string)
    | AskChallenge(code: string)
    | Redeem(client: Client, code: string, verifier: string, redirect: Option<string>, resource: Option<string>, access: string, refresh: string)
    | Renew(client: Client, token: string, scopes: Option<seq<string>>, resource: Option<string>, access: string, refresh: string)
    | Verify(token: string)
    | Revoke(token: string)

  datatype Response =
    | Failed
    | Done
    | Registered(client: Client)
    | Found(known: Option<Client>)
    | Redirect(code: string)
    | Challenge(challenge: string)
    | Issued(access: string, refresh: string, scopes: seq<string>, expiresIn: int)
    | Info(clientId: string, scopes: seq<string>, resource: Option<string>, expiresAt: int)

  /** What a request makes of the store; `written` says that the answer waits for a write. */
  datatype Outcome = Outcome(store: Store, response: Response, written: bool)

  function Kept(scopes: seq<string>, within: seq<string>): (r: seq<string>)
    ensures forall s :: s in r <==> s in scopes && s in within
  {
    if scopes == [] then []
    else
      var rest := Kept(scopes[..|scopes| - 1], within);
      var s := scopes[|scopes| - 1];
      assert scopes == scopes[..|scopes| - 1] + [s];
      if s in within then rest + [s] else rest
  }

  function Distinct(xs: seq<string>): seq<string> {
    if xs == [] then []
    else
      var rest := Distinct(xs[..|xs| - 1]);
      if xs[|xs| - 1] in rest then rest else rest + [xs[|xs| - 1]]
  }

  function Or(a: Option<string>, b: Option<string>): Option<string> {
    if a.Some? then a else b
  }

  function IssueTokens(cfg: Config, s: Store, now: int, clientId: string, scopes: seq<string>, resource: Option<string>,
                       access: string, refresh: string): Store
  {
    s.(tokens := s.tokens[access := Token(clientId, scopes, resource, now + AccessTtl(cfg), Access)]
                         [refresh := Token(clientId, scopes, resource, now + REFRESH_TTL, Refresh)])
  }

  function IssuedTokens(cfg: Config, access: string, refresh: string, scopes: seq<string>): Response {
    Issued(access, refresh, scopes, AccessTtl(cfg) / 1000)
  }

  function DoRegister(cfg: Config, s: Store, now: int, uris: seq<string>, id: string, secret: string): Outcome {
    var us := Distinct(uris);
    if |us| == 0 || |us| > 8 || exists u :: u in us && !cfg.allowed(u) then Outcome(s, Failed, false)
    else
      var client := Client(id, us, Some(secret), now / 1000 + SECRET_TTL_SECONDS);
      Outcome(s.(clients := s.clients[id := client]), Registered(client), true)
  }

  function DoGetClient(s: Store, now: int, id: string): Response {
    if id !in s.clients then Found(None)
    else if s.clients[id].secretExpiresAt != 0 && s.clients[id].secretExpiresAt < now / 1000
    then Found(Some(s.clients[id].(secret := None)))
    else Found(Some(s.clients[id]))
  }

  function DoAuthorize(cfg: Config, s: Store, now: int, client: Client, redirectUri: string, challenge: string,
                       scopes: Option<seq<string>>, resource: Option<string>, code: string): Outcome
  {
    if redirectUri !in client.redirectUris || challenge == "" then Outcome(s, Failed, false)
    else
      var granted := Kept(if scopes.Some? then scopes.value else cfg.scopes, cfg.scopes);
      Outcome(s.(codes := s.codes[code := Code(client.id, challenge, redirectUri, granted, resource, now + CODE_TTL)]), Redirect(code), true)
  }

  function DoAskChallenge(s: Store, now: int, code: string): Response {
    if code !in s.codes || s.codes[code].expiresAt <= now then Failed else Challenge(s.codes[code].challenge)
  }

  predicate Redeemable(cfg: Config, s: Store, now: int, client: Client, code: string, verifier: string, redirect: Option<string>) {
    && code in s.codes && s.codes[code].expiresAt > now && s.codes[code].clientId == client.id
    && verifier != "" && cfg.digest(verifier) == s.codes[code].challenge
    && (redirect.Some? && redirect.value != "" ==> redirect.value == s.codes[code].redirectUri)
  }

  function DoRedeem(cfg: Config, s: Store, now: int, client: Client, code: string, verifier: string, redirect: Option<string>,
                    resource: Option<string>, access: string, refresh: string): Outcome
  {
    if !Redeemable(cfg, s, now, client, code, verifier, redirect) then Outcome(s, Failed, false)
    else
      var c := s.codes[code];
      Outcome(
        IssueTokens(cfg, s.(codes := s.codes - {code}), now, client.id, c.scopes, Or(resource, c.resource), access, refresh),
        IssuedTokens(cfg, access, refresh, c.scopes), true)
  }

  predicate Renewable(s: Store, now: int, client: Client, token: string) {
    token in s.tokens && s.tokens[token].kind == Refresh && s.tokens[token].expiresAt > now && s.tokens[token].clientId == client.id
  }

  function Narrowed(cfg: Config, scopes: Option<seq<string>>, held: seq<string>): seq<string> {
    Kept(Kept(if scopes.Some? then scopes.value else held, held), cfg.scopes)
  }

  function DoRenew(cfg: Config, s: Store, now: int, client: Client, token: string, scopes: Option<seq<string>>,
                   resource: Option<string>, access: string, refresh: string): Outcome
  {
    if !Renewable(s, now, client, token) then Outcome(s, Failed, false)
    else
      var t := s.tokens[token];
      var narrowed := Narrowed(cfg, scopes, t.scopes);
      Outcome(
        IssueTokens(cfg, s.(tokens := s.tokens - {token}), now, client.id, narrowed, Or(resource, t.resource), access, refresh),
        IssuedTokens(cfg, access, refresh, narrowed), true)
  }

  function DoVerify(s: Store, now: int, token: string): Response {
    if token !in s.tokens || s.tokens[token].kind != Access || s.tokens[token].expiresAt <= now then Failed
    else var t := s.tokens[token]; Info(t.clientId, t.scopes, t.resource, t.expiresAt / 1000)
  }

  function Do(cfg: Config, s: Store, now: int, q: Request): Outcome {
    match q
    case Register(uris, id, secret) => DoRegister(cfg, s, now, uris, id, secret)
    case GetClient(id) => Outcome(s, DoGetClient(s, now, id), false)
    case Authorize(client, redirectUri, challenge, scopes, resource, code) =>
      DoAuthorize(cfg, s, now, client, redirectUri, challenge, scopes, resource, code)
    case AskChallenge(code) => Outcome(s, DoAskChallenge(s, now, code), false)
    case Redeem(client, code, verifier, redirect, resource, access, refresh) =>
      DoRedeem(cfg, s, now, client, code, verifier, redirect, resource, access, refresh)
    case Renew(client, token, scopes, resource, access, refresh) =>
      DoRenew(cfg, s, now, client, token, scopes, resource, access, refresh)
    case Verify(token) => Outcome(s, DoVerify(s, now, token), false)
    case Revoke(token) => Outcome(s.(tokens := s.tokens - {token}), Done, true)
  }

  // ---------------------------------------------------------------- restarts

  /** What a restart at a time reads back: expired codes and tokens are dropped. */
  function Reload(s: Store, now: int): Store {
    Store(
      s.clients,
      map k | k in s.codes && s.codes[k].expiresAt > now :: s.codes[k],
      map k | k in s.tokens && s.tokens[k].expiresAt > now :: s.tokens[k])
  }

  /** The two stores agree on everything that has not expired by t. */
  ghost predicate SameSince(t: int, a: Store, b: Store) {
    && a.clients == b.clients
    && (forall k :: k in a.codes && a.codes[k].expiresAt > t ==> k in b.codes && a.codes[k] == b.codes[k])
    && (forall k :: k in b.codes && b.codes[k].expiresAt > t ==> k in a.codes && a.codes[k] == b.codes[k])
    && (forall k :: k in a.tokens && a.tokens[k].expiresAt > t ==> k in b.tokens && a.tokens[k] == b.tokens[k])
    && (forall k :: k in b.tokens && b.tokens[k].expiresAt > t ==> k in a.tokens && a.tokens[k] == b.tokens[k])
  }

  /** A request is answered alike by stores that agree on what has not expired. */
  ghost predicate Alike(t: int, a: Outcome, b: Outcome) {
    a.response == b.response && a.written == b.written && SameSince(t, a.store, b.store)
  }

  lemma IssueAlike(cfg: Config, t: int, a: Store, b: Store, now: int, clientId: string, scopes: seq<string>,
                   resource: Option<string>, access: string, refresh: string)
    requires SameSince(t, a, b)
    ensures SameSince(t, IssueTokens(cfg, a, now, clientId, scopes, resource, access, refresh),
                         IssueTokens(cfg, b, now, clientId, scopes, resource, access, refresh))
  {
  }

  lemma RedeemAlike(cfg: Config, t: int, a: Store, b: Store, now: int, q: Request)
    requires SameSince(t, a, b) && t <= now && q.Redeem?
    ensures Alike(t, Do(cfg, a, now, q), Do(cfg, b, now, q))
  {
    if Redeemable(cfg, a, now, q.client, q.code, q.verifier, q.redirect) {
      var c := a.codes[q.code];
      IssueAlike(cfg, t, a.(codes := a.codes - {q.code}), b.(codes := b.codes - {q.code}), now, q.client.id,
                 c.scopes, Or(q.resource, c.resource), q.access, q.refresh);
    }
  }

  lemma RenewAlike(cfg: Config, t: int, a: Store, b: Store, now: int, q: Request)
    requires SameSince(t, a, b) && t <= now && q.Renew?
    ensures Alike(t, Do(cfg, a, now, q), Do(cfg, b, now, q))
  {
    if Renewable(a, now, q.client, q.token) {
      var r := a.tokens[q.token];
      IssueAlike(cfg, t, a.(tokens := a.tokens - {q.token}), b.(tokens := b.tokens - {q.token}), now, q.client.id,
                 Narrowed(cfg, q.scopes, r.scopes), Or(q.resource, r.resource), q.access, q.refresh);
    }
  }

  lemma AnswersAlike(cfg: Config, t: int, a: Store, b: Store, now: int, q: Request)
    requires SameSince(t, a, b) && t <= now
    ensures Alike(t, Do(cfg, a, now, q), Do(cfg, b, now, q))
  {
    if q.Redeem? {
      RedeemAlike(cfg, t, a, b, now, q);
    } else if q.Renew? {
      RenewAlike(cfg, t, a, b, now, q);
    }
  }

  datatype Timed = Timed(now: int, q: Request)

  /** The answers a provider gives to a list of requests. */
  function Answers(cfg: Config, s: Store, qs: seq<Timed>): seq<Response>
    decreases |qs|
  {
    if qs == [] then []
    else
      var o := Do(cfg, s, qs[0].now, qs[0].q);
      [o.response] + Answers(cfg, o.store, qs[1..])
  }

  lemma {:induction false} AnswerAllAlike(cfg: Config, t: int, a: Store, b: Store, qs: seq<Timed>)
    requires SameSince(t, a, b) && forall i :: 0 <= i < |qs| ==> t <= qs[i].now
    ensures Answers(cfg, a, qs) == Answers(cfg, b, qs)
    decreases |qs|
  {
    if qs != [] {
      AnswersAlike(cfg, t, a, b, qs[0].now, qs[0].q);
      AnswerAllAlike(cfg, t, Do(cfg, a, qs[0].now, qs[0].q).store, Do(cfg, b, qs[0].now, qs[0].q).store, qs[1..]);
    }
  }

  // ---------------------------------------------------------------- runs

  datatype Write = Write(snapshot: Store, response: Response, spent: Option<string>)

  datatype System = System(
    mem: Store, disk: Store, pending: seq<Write>, clock: int,
    grant: map<string, string>, allowance: map<string, seq<string>>, redeemed: seq<string>)

  datatype Event = Ask(now: int, q: Request) | WriteDone | Restart(now: int)

  /** The code or refresh token that a successful request uses up. */
  function Spent(o: Outcome, q: Request): Option<string> {
    if !o.response.Issued? then None
    else match q
      case Redeem(_, code, _, _, _, _, _) => Some(code)
      case Renew(_, token, _, _, _, _) => Some(token)
      case _ => None
  }

  /** The grants after a request. */
  function GrantAfter(grant: map<string, string>, q: Request, o: Outcome): map<string, string> {
    match q
    case Authorize(_, _, _, _, _, code) => if o.response.Redirect? then grant[code := code] else grant
    case Redeem(_, code, _, _, _, access, refresh) =>
      if o.response.Issued? && code in grant then grant[access := grant[code]][refresh := grant[code]] else grant
    case Renew(_, token, _, _, access, refresh) =>
      if o.response.Issued? && token in grant then grant[access := grant[token]][refresh := grant[token]] else grant
    case _ => grant
  }

  function AllowanceAfter(allowance: map<string, seq<string>>, q: Request, o: Outcome): map<string, seq<string>> {
    if q.Authorize? && o.response.Redirect? && q.code in o.store.codes then allowance[q.code := o.store.codes[q.code].scopes] else allowance
  }

  function DoAsk(cfg: Config, sys: System, now: int, q: Request): System {
    var o := Do(cfg, sys.mem, now, q);
    sys.(
      mem := o.store, clock := now,
      grant := GrantAfter(sys.grant, q, o), allowance := AllowanceAfter(sys.allowance, q, o),
      pending := if o.written then sys.pending + [Write(o.store, o.response, Spent(o, q))] else sys.pending)
  }

  function DoWriteDone(sys: System): System {
    if sys.pending == [] then sys
    else
      var w := sys.pending[0];
      sys.(disk := w.snapshot, pending := sys.pending[1..], redeemed := sys.redeemed + if w.spent.Some? then [w.spent.value] else [])
  }

  function Step(cfg: Config, sys: System, e: Event): System {
    match e
    case Ask(now, q) => DoAsk(cfg, sys, now, q)
    case WriteDone => DoWriteDone(sys)
    case Restart(now) => sys.(mem := Reload(sys.disk, now), pending := [], clock := now)
  }

  function Run(cfg: Config, sys: System, es: seq<Event>): System
    decreases |es|
  {
    if es == [] then sys else Run(cfg, Step(cfg, sys, es[0]), es[1..])
  }

  const EMPTY := Store(map[], map[], map[])

  function Boot(): System {
    System(EMPTY, EMPTY, [], 0, map[], map[], [])
  }

  function NewNames(q: Request): set<string> {
    match q
    case Authorize(_, _, _, _, _, code) => {code}
    case Redeem(_, _, _, _, _, access, refresh) => {access, refresh}
    case Renew(_, _, _, _, access, refresh) => {access, refresh}
    case _ => {}
  }

  /** Time does not run backwards, and random names are new. */
  predicate Possible(sys: System, e: Event) {
    match e
    case Ask(now, q) =>
      sys.clock <= now && NewTo(sys.grant, q)
    case WriteDone => true
    case Restart(now) => sys.clock <= now
  }

  predicate AllPossible(cfg: Config, sys: System, es: seq<Event>)
    decreases |es|
  {
    es == [] || (Possible(sys, es[0]) && AllPossible(cfg, Step(cfg, sys, es[0]), es[1..]))
  }

  // ---------------------------------------------------------------- one grant, one line

  predicate Within(a: seq<string>, b: seq<string>) {
    forall s :: s in a ==> s in b
  }

  /** Every grant in the store is one unredeemed code, or a chain with at most
      one refresh token; nothing holds more scopes than were authorized. */
  ghost predicate Linear(grant: map<string, string>, allowance: map<string, seq<string>>, s: Store) {
    && (forall c :: c in s.codes ==> c in grant && grant[c] == c && c in allowance && Within(s.codes[c].scopes, allowance[c]))
    && (forall t :: t in s.tokens ==> t in grant && grant[t] in allowance && grant[t] in grant && Within(s.tokens[t].scopes, allowance[grant[t]]))
    && (forall c, t :: c in s.codes && t in s.tokens ==> grant[t] != c)
    && (forall t, u :: t in s.tokens && u in s.tokens && s.tokens[t].kind == Refresh && s.tokens[u].kind == Refresh && grant[t] == grant[u] ==> t == u)
  }

  predicate Gone(x: string, s: Store) {
    x !in s.codes && x !in s.tokens
  }

  lemma LinearGrows(grant: map<string, string>, allowance: map<string, seq<string>>, grant': map<string, string>, allowance': map<string, seq<string>>, s: Store)
    requires Linear(grant, allowance, s) && Extends(grant, grant') && ExtendsAllowance(allowance, allowance')
    ensures Linear(grant', allowance', s)
  {
  }

  predicate Extends(a: map<string, string>, b: map<string, string>) {
    forall k :: k in a ==> k in b && a[k] == b[k]
  }

  predicate ExtendsAllowance(a: map<string, seq<string>>, b: map<string, seq<string>>) {
    forall k :: k in a ==> k in b && a[k] == b[k]
  }

  /** What a request does to any store in which every name is known. */
  ghost predicate Careful(grant: map<string, string>, s: Store, q: Request, o: Outcome) {
    && (forall x :: x in grant && Gone(x, s) ==> Gone(x, o.store))
    && (Spent(o, q).Some? ==> !Gone(Spent(o, q).value, s) && Gone(Spent(o, q).value, o.store))
    && (Spent(o, q).Some? ==> o.written)
  }

  /** Names are new to the observer. */
  predicate NewTo(grant: map<string, string>, q: Request) {
    NewNames(q) !! grant.Keys && (q.Redeem? || q.Renew? ==> q.access != q.refresh)
  }

  lemma RequestIsCareful(cfg: Config, grant: map<string, string>, allowance: map<string, seq<string>>, s: Store, now: int, q: Request)
    requires Linear(grant, allowance, s) && NewTo(grant, q)
    ensures Careful(grant, s, q, Do(cfg, s, now, q))
  {
    match q
    case Redeem(_, code, _, _, _, access, refresh) =>
      assert !(code in s.codes && code in s.tokens);
      assert access in NewNames(q) && refresh in NewNames(q);
    case Renew(_, token, _, _, access, refresh) =>
      assert !(token in s.codes && token in s.tokens);
      assert access in NewNames(q) && refresh in NewNames(q);
    case Authorize(_, _, _, _, _, code) =>
      assert code in NewNames(q);
    case _ =>
  }

  lemma AuthorizeLinear(cfg: Config, grant: map<string, string>, allowance: map<string, seq<string>>, s: Store, now: int, q: Request)
    requires Linear(grant, allowance, s) && NewTo(grant, q) && q.Authorize? && allowance.Keys <= grant.Keys
    ensures var o := Do(cfg, s, now, q); Linear(GrantAfter(grant, q, o), AllowanceAfter(allowance, q, o), o.store)
  {
    assert q.code in NewNames(q);
  }

  /** Tokens for a grant that has neither a code nor a refresh token left. */
  lemma IssueLinear(cfg: Config, grant: map<string, string>, allowance: map<string, seq<string>>, s: Store, now: int, clientId: string,
                    scopes: seq<string>, resource: Option<string>, access: string, refresh: string, g: string)
    requires Linear(grant, allowance, s) && access !in grant && refresh !in grant && access != refresh
    requires g in grant && g in allowance && Within(scopes, allowance[g]) && g !in s.codes
    requires forall t :: t in s.tokens && grant[t] == g ==> s.tokens[t].kind == Access
    ensures Linear(grant[access := g][refresh := g], allowance, IssueTokens(cfg, s, now, clientId, scopes, resource, access, refresh))
  {
  }

  lemma RedeemLinear(cfg: Config, grant: map<string, string>, allowance: map<string, seq<string>>, s: Store, now: int, q: Request)
    requires Linear(grant, allowance, s) && NewTo(grant, q) && q.Redeem?
    ensures var o := Do(cfg, s, now, q); Linear(GrantAfter(grant, q, o), AllowanceAfter(allowance, q, o), o.store)
  {
    assert q.access in NewNames(q) && q.refresh in NewNames(q);
    if Redeemable(cfg, s, now, q.client, q.code, q.verifier, q.redirect) {
      var c := s.codes[q.code];
      IssueLinear(cfg, grant, allowance, s.(codes := s.codes - {q.code}), now, q.client.id, c.scopes, Or(q.resource, c.resource),
                  q.access, q.refresh, q.code);
    }
  }

  /** Without its refresh token a grant has only access tokens. */
  lemma WithoutRefresh(grant: map<string, string>, allowance: map<string, seq<string>>, s: Store, token: string)
    requires Linear(grant, allowance, s) && token in s.tokens && s.tokens[token].kind == Refresh
    ensures var s' := s.(tokens := s.tokens - {token});
      && Linear(grant, allowance, s') && grant[token] !in s.codes
      && forall t :: t in s'.tokens && grant[t] == grant[token] ==> s'.tokens[t].kind == Access
  {
  }

  lemma RenewLinear(cfg: Config, grant: map<string, string>, allowance: map<string, seq<string>>, s: Store, now: int, q: Request)
    requires Linear(grant, allowance, s) && NewTo(grant, q) && q.Renew?
    ensures var o := Do(cfg, s, now, q); Linear(GrantAfter(grant, q, o), AllowanceAfter(allowance, q, o), o.store)
  {
    assert q.access in NewNames(q) && q.refresh in NewNames(q);
    if Renewable(s, now, q.client, q.token) {
      var r, s' := s.tokens[q.token], s.(tokens := s.tokens - {q.token});
      WithoutRefresh(grant, allowance, s, q.token);
      IssueLinear(cfg, grant, allowance, s', now, q.client.id, Narrowed(cfg, q.scopes, r.scopes),
                  Or(q.resource, r.resource), q.access, q.refresh, grant[q.token]);
    }
  }

  lemma RequestLinear(cfg: Config, grant: map<string, string>, allowance: map<string, seq<string>>, s: Store, now: int, q: Request)
    requires Linear(grant, allowance, s) && NewTo(grant, q) && allowance.Keys <= grant.Keys
    ensures var o := Do(cfg, s, now, q); Linear(GrantAfter(grant, q, o), AllowanceAfter(allowance, q, o), o.store)
  {
    match q
    case Authorize(_, _, _, _, _, _) => AuthorizeLinear(cfg, grant, allowance, s, now, q);
    case Redeem(_, _, _, _, _, _, _) => RedeemLinear(cfg, grant, allowance, s, now, q);
    case Renew(_, _, _, _, _, _) => RenewLinear(cfg, grant, allowance, s, now, q);
    case _ =>
  }

  lemma GrantsGrow(cfg: Config, grant: map<string, string>, allowance: map<string, seq<string>>, s: Store, now: int, q: Request)
    requires NewTo(grant, q) && allowance.Keys <= grant.Keys
    ensures var o := Do(cfg, s, now, q);
      && Extends(grant, GrantAfter(grant, q, o)) && ExtendsAllowance(allowance, AllowanceAfter(allowance, q, o))
      && AllowanceAfter(allowance, q, o).Keys <= GrantAfter(grant, q, o).Keys
  {
    match q
    case Authorize(_, _, _, _, _, code) => assert code in NewNames(q);
    case Redeem(_, _, _, _, _, access, refresh) => assert access in NewNames(q) && refresh in NewNames(q);
    case Renew(_, _, _, _, access, refresh) => assert access in NewNames(q) && refresh in NewNames(q);
    case _ =>
  }

  // ---------------------------------------------------------------- every reachable state

  ghost predicate AllLinear(grant: map<string, string>, allowance: map<string, seq<string>>, mem: Store, disk: Store, pending: seq<Write>) {
    && Linear(grant, allowance, mem) && Linear(grant, allowance, disk)
    && forall i :: 0 <= i < |pending| ==> Linear(grant, allowance, pending[i].snapshot)
  }

  ghost predicate GoneFrom(x: string, mem: Store, pending: seq<Write>, from: int) {
    Gone(x, mem) && forall j :: 0 <= from <= j < |pending| ==> Gone(x, pending[j].snapshot)
  }

  /** What was redeemed is gone for good, and what is being redeemed is gone from
      every store that comes after. */
  ghost predicate SpentOnce(grant: map<string, string>, mem: Store, disk: Store, pending: seq<Write>, redeemed: seq<string>) {
    && (forall x :: x in redeemed ==> x in grant && Gone(x, disk) && GoneFrom(x, mem, pending, 0))
    && (forall i, j :: 0 <= i < j < |redeemed| ==> redeemed[i] != redeemed[j])
    && (forall i :: 0 <= i < |pending| && pending[i].spent.Some? ==>
          pending[i].spent.value in grant && pending[i].spent.value !in redeemed && GoneFrom(pending[i].spent.value, mem, pending, i))
    && (forall i, j :: 0 <= i < j < |pending| && pending[i].spent.Some? ==> pending[i].spent != pending[j].spent)
  }

  function Latest(disk: Store, pending: seq<Write>): Store {
    if pending == [] then disk else pending[|pending| - 1].snapshot
  }

  ghost predicate Ok(sys: System) {
    && sys.allowance.Keys <= sys.grant.Keys
    && AllLinear(sys.grant, sys.allowance, sys.mem, sys.disk, sys.pending)
    && SpentOnce(sys.grant, sys.mem, sys.disk, sys.pending, sys.redeemed)
    && SameSince(sys.clock, sys.mem, Latest(sys.disk, sys.pending))
  }

  lemma AllLinearGrows(grant: map<string, string>, allowance: map<string, seq<string>>, grant': map<string, string>, allowance': map<string, seq<string>>,
                       mem: Store, disk: Store, pending: seq<Write>)
    requires AllLinear(grant, allowance, mem, disk, pending) && Extends(grant, grant') && ExtendsAllowance(allowance, allowance')
    ensures AllLinear(grant', allowance', mem, disk, pending)
  {
    LinearGrows(grant, allowance, grant', allowance', mem);
    LinearGrows(grant, allowance, grant', allowance', disk);
    forall i | 0 <= i < |pending| ensures Linear(grant', allowance', pending[i].snapshot) {
      LinearGrows(grant, allowance, grant', allowance', pending[i].snapshot);
    }
  }

  /** A request that writes puts its outcome behind the waiting writes. */
  lemma SpentOnceAfterWrite(grant: map<string, string>, grant': map<string, string>, mem: Store, disk: Store, pending: seq<Write>,
                            redeemed: seq<string>, q: Request, o: Outcome, w: Write)
    requires SpentOnce(grant, mem, disk, pending, redeemed) && Extends(grant, grant') && Careful(grant, mem, q, o)
    requires w == Write(o.store, o.response, Spent(o, q)) && (w.spent.Some? ==> w.spent.value in grant)
    ensures SpentOnce(grant', o.store, disk, pending + [w], redeemed)
  {
    var more := pending + [w];
    forall x | x in redeemed ensures GoneFrom(x, o.store, more, 0) {
      assert GoneFrom(x, mem, pending, 0);
    }
    forall i | 0 <= i < |more| && more[i].spent.Some?
      ensures more[i].spent.value in grant' && more[i].spent.value !in redeemed && GoneFrom(more[i].spent.value, o.store, more, i)
    {
      if i < |pending| {
        assert GoneFrom(pending[i].spent.value, mem, pending, i);
      }
    }
  }

  lemma SpentOnceNoWrite(grant: map<string, string>, grant': map<string, string>, mem: Store, mem': Store, disk: Store, pending: seq<Write>, redeemed: seq<string>)
    requires SpentOnce(grant, mem, disk, pending, redeemed) && Extends(grant, grant')
    requires forall x :: x in grant && Gone(x, mem) ==> Gone(x, mem')
    ensures SpentOnce(grant', mem', disk, pending, redeemed)
  {
    forall x | x in redeemed ensures GoneFrom(x, mem', pending, 0) {
      assert GoneFrom(x, mem, pending, 0);
    }
    forall i | 0 <= i < |pending| && pending[i].spent.Some? ensures GoneFrom(pending[i].spent.value, mem', pending, i) {
      assert GoneFrom(pending[i].spent.value, mem, pending, i);
    }
  }

  /** A request that does not write leaves the store alone. */
  lemma UnwrittenUnchanged(cfg: Config, s: Store, now: int, q: Request)
    ensures !Do(cfg, s, now, q).written ==> Do(cfg, s, now, q).store == s
  {
  }

  lemma SameLater(t: int, u: int, a: Store, b: Store)
    requires SameSince(t, a, b) && t <= u
    ensures SameSince(u, a, b)
  {
  }

  lemma AskKeeps(cfg: Config, sys: System, now: int, q: Request)
    requires Ok(sys) && Possible(sys, Ask(now, q))
    ensures Ok(DoAsk(cfg, sys, now, q))
  {
    var o, sys' := Do(cfg, sys.mem, now, q), DoAsk(cfg, sys, now, q);
    RequestIsCareful(cfg, sys.grant, sys.allowance, sys.mem, now, q);
    RequestLinear(cfg, sys.grant, sys.allowance, sys.mem, now, q);
    GrantsGrow(cfg, sys.grant, sys.allowance, sys.mem, now, q);
    AllLinearGrows(sys.grant, sys.allowance, sys'.grant, sys'.allowance, sys.mem, sys.disk, sys.pending);
    UnwrittenUnchanged(cfg, sys.mem, now, q);
    if o.written {
      SpentOnceAfterWrite(sys.grant, sys'.grant, sys.mem, sys.disk, sys.pending, sys.redeemed, q, o, Write(o.store, o.response, Spent(o, q)));
    } else {
      SpentOnceNoWrite(sys.grant, sys'.grant, sys.mem, o.store, sys.disk, sys.pending, sys.redeemed);
      SameLater(sys.clock, now, sys.mem, Latest(sys.disk, sys.pending));
    }
  }

  lemma WriteDoneKeeps(sys: System)
    requires Ok(sys)
    ensures Ok(DoWriteDone(sys))
  {
    if sys.pending != [] {
      var w, rest := sys.pending[0], sys.pending[1..];
      var redeemed := DoWriteDone(sys).redeemed;
      forall x | x in redeemed ensures x in sys.grant && Gone(x, w.snapshot) && GoneFrom(x, sys.mem, rest, 0) {
        assert GoneFrom(x, sys.mem, sys.pending, 0);
      }
      forall i | 0 <= i < |rest| && rest[i].spent.Some?
        ensures rest[i].spent.value in sys.grant && rest[i].spent.value !in redeemed && GoneFrom(rest[i].spent.value, sys.mem, rest, i)
      {
        assert rest[i] == sys.pending[i + 1];
        assert GoneFrom(sys.pending[i + 1].spent.value, sys.mem, sys.pending, i + 1);
      }
    }
  }

  lemma RestartKeeps(sys: System, now: int)
    requires Ok(sys) && sys.clock <= now
    ensures Ok(sys.(mem := Reload(sys.disk, now), pending := [], clock := now))
  {
    var mem := Reload(sys.disk, now);
    ReloadLinear(sys.grant, sys.allowance, sys.disk, now);
    ReloadSame(sys.disk, sys.disk, now);
    assert forall x :: Gone(x, sys.disk) ==> Gone(x, mem);
    assert SpentOnce(sys.grant, mem, sys.disk, [], sys.redeemed);
  }

  lemma ReloadLinear(grant: map<string, string>, allowance: map<string, seq<string>>, s: Store, now: int)
    requires Linear(grant, allowance, s)
    ensures Linear(grant, allowance, Reload(s, now))
  {
  }

  lemma ReloadSame(a: Store, b: Store, now: int)
    requires SameSince(now, a, b)
    ensures SameSince(now, Reload(a, now), b) && SameSince(now, b, Reload(a, now))
  {
  }

  lemma StepKeeps(cfg: Config, sys: System, e: Event)
    requires Ok(sys) && Possible(sys, e)
    ensures Ok(Step(cfg, sys, e))
  {
    match e
    case Ask(now, q) => AskKeeps(cfg, sys, now, q);
    case WriteDone => WriteDoneKeeps(sys);
    case Restart(now) => RestartKeeps(sys, now);
  }

  lemma {:induction false} RunKeeps(cfg: Config, sys: System, es: seq<Event>)
    requires Ok(sys) && AllPossible(cfg, sys, es)
    ensures Ok(Run(cfg, sys, es))
    decreases |es|
  {
    if es != [] {
      StepKeeps(cfg, sys, es[0]);
      RunKeeps(cfg, Step(cfg, sys, es[0]), es[1..]);
    }
  }

  /** Grants are linear: over any run of requests, finished writes and restarts,
      every grant in memory and on disk is one unredeemed code or a chain with at
      most one refresh token, within the scopes that were authorized. */
  lemma GrantsAreLinear(cfg: Config, es: seq<Event>)
    requires AllPossible(cfg, Boot(), es)
    ensures var sys := Run(cfg, Boot(), es);
      Linear(sys.grant, sys.allowance, sys.mem) && Linear(sys.grant, sys.allowance, sys.disk)
  {
    RunKeeps(cfg, Boot(), es);
  }

  /** No code and no refresh token is redeemed twice, even when restarts bring
      back states whose writes were lost. */
  lemma RedeemedAtMostOnce(cfg: Config, es: seq<Event>, i: nat, j: nat)
    requires AllPossible(cfg, Boot(), es) && i < j < |Run(cfg, Boot(), es).redeemed|
    ensures Run(cfg, Boot(), es).redeemed[i] != Run(cfg, Boot(), es).redeemed[j]
  {
    RunKeeps(cfg, Boot(), es);
  }

  /** What was redeemed is refused for ever. */
  lemma RedeemedIsRefused(cfg: Config, es: seq<Event>, x: string, now: int, q: Request)
    requires AllPossible(cfg, Boot(), es) && x in Run(cfg, Boot(), es).redeemed
    requires (q.Redeem? && q.code == x) || (q.Renew? && q.token == x)
    ensures Do(cfg, Run(cfg, Boot(), es).mem, now, q) == Outcome(Run(cfg, Boot(), es).mem, Failed, false)
  {
    RunKeeps(cfg, Boot(), es);
    var sys := Run(cfg, Boot(), es);
    assert GoneFrom(x, sys.mem, sys.pending, 0);
    GoneIsRefused(cfg, sys.mem, x, now, q);
  }

  lemma GoneIsRefused(cfg: Config, s: Store, x: string, now: int, q: Request)
    requires Gone(x, s) && ((q.Redeem? && q.code == x) || (q.Renew? && q.token == x))
    ensures Do(cfg, s, now, q) == Outcome(s, Failed, false)
  {
  }

  lemma RestartAlike(cfg: Config, sys: System, t: int, qs: seq<Timed>)
    requires SameSince(sys.clock, sys.mem, sys.disk) && sys.clock <= t && forall i :: 0 <= i < |qs| ==> t <= qs[i].now
    ensures Answers(cfg, sys.mem, qs) == Answers(cfg, Reload(sys.disk, t), qs)
  {
    SameLater(sys.clock, t, sys.mem, sys.disk);
    ReloadSame(sys.disk, sys.mem, t);
    AnswerAllAlike(cfg, t, sys.mem, Reload(sys.disk, t), qs);
  }

  /** Restarts do not show: once every write has finished, the provider that reads
      its state back at any later time answers every later request as the one
      that was never restarted. */
  lemma RestartIsInvisible(cfg: Config, es: seq<Event>, sys: System, t: int, qs: seq<Timed>)
    requires AllPossible(cfg, Boot(), es) && sys == Run(cfg, Boot(), es)
    requires sys.pending == [] && sys.clock <= t && forall i :: 0 <= i < |qs| ==> t <= qs[i].now
    ensures Answers(cfg, sys.mem, qs) == Answers(cfg, Reload(sys.disk, t), qs)
  {
    WrittenIsKept(cfg, es, sys);
    RestartAlike(cfg, sys, t, qs);
  }

  lemma WrittenIsKept(cfg: Config, es: seq<Event>, sys: System)
    requires AllPossible(cfg, Boot(), es) && sys == Run(cfg, Boot(), es) && sys.pending == []
    ensures SameSince(sys.clock, sys.mem, sys.disk)
  {
    RunKeeps(cfg, Boot(), es);
  }

  /** Scopes only shrink: what a refresh issues is within what the token held. */
  lemma RenewNarrows(cfg: Config, s: Store, now: int, q: Request)
    requires q.Renew? && Do(cfg, s, now, q).response.Issued? && q.access != q.refresh
    ensures var o := Do(cfg, s, now, q);
      && q.token in s.tokens && Within(o.response.scopes, s.tokens[q.token].scopes) && Within(o.response.scopes, cfg.scopes)
      && o.store.tokens[q.access].scopes == o.response.scopes && o.store.tokens[q.refresh].scopes == o.response.scopes
  {
  }

  /** A write that a restart overtakes is never answered, and the code it would have spent can be redeemed again. */
  lemma LostWriteIsNotAnswered(cfg: Config, sys: System, now: int)
    requires Ok(sys)
    ensures Step(cfg, sys, Restart(now)).redeemed == sys.redeemed
    ensures forall c :: c in sys.disk.codes && sys.disk.codes[c].expiresAt > now ==>
      c in Step(cfg, sys, Restart(now)).mem.codes && c !in sys.redeemed
  {
  }

  // ---------------------------------------------------------------- the provider itself

  class Provider {
    const cfg: Config
    var clients: map<string, Client>
    var codes: map<string, Code>
    var tokens: map<string, Token>

    ghost function View(): Store
      reads this
    {
      Store(clients, codes, tokens)
    }

    /** A provider that has read its state file at a time. */
    constructor (cfg: Config, stored: Option<Store>, now: int)
      ensures this.cfg == cfg && View() == if stored.None? then EMPTY else Reload(stored.value, now)
    {
      this.cfg := cfg;
      clients := if stored.None? then map[] else stored.value.clients;
      codes := if stored.None? then map[] else map k | k in stored.value.codes && stored.value.codes[k].expiresAt > now :: stored.value.codes[k];
      tokens := if stored.None? then map[] else map k | k in stored.value.tokens && stored.value.tokens[k].expiresAt > now :: stored.value.tokens[k];
    }

    method RegisterClient(now: int, uris: seq<string>, id: string, secret: string) returns (r: Response, written: bool)
      modifies this`clients
      ensures Outcome(View(), r, written) == Do(cfg, old(View()), now, Register(uris, id, secret))
    {
      var us := Distinct(uris);
      if |us| == 0 || |us| > 8 || exists u :: u in us && !cfg.allowed(u) {
        return Failed, false;
      }
      var client := Client(id, us, Some(secret), now / 1000 + SECRET_TTL_SECONDS);
      clients := clients[id := client];
      return Registered(client), true;
    }

    method AuthorizeClient(now: int, client: Client, redirectUri: string, challenge: string, scopes: Option<seq<string>>,
                           resource: Option<string>, code: string) returns (r: Response, written: bool)
      modifies this`codes
      ensures Outcome(View(), r, written) == Do(cfg, old(View()), now, Authorize(client, redirectUri, challenge, scopes, resource, code))
    {
      if redirectUri !in client.redirectUris {
        return Failed, false;
      }
      if challenge == "" {
        return Failed, false;
      }
      var granted := Kept(if scopes.Some? then scopes.value else cfg.scopes, cfg.scopes);
      codes := codes[code := Code(client.id, challenge, redirectUri, granted, resource, now + CODE_TTL)];
      return Redirect(code), true;
    }

    method Issue(now: int, clientId: string, scopes: seq<string>, resource: Option<string>, access: string, refresh: string) returns (r: Response)
      modifies this`tokens
      ensures View() == IssueTokens(cfg, old(View()), now, clientId, scopes, resource, access, refresh)
      ensures r == IssuedTokens(cfg, access, refresh, scopes)
    {
      tokens := tokens[access := Token(clientId, scopes, resource, now + AccessTtl(cfg), Access)];
      tokens := tokens[refresh := Token(clientId, scopes, resource, now + REFRESH_TTL, Refresh)];
      return Issued(access, refresh, scopes, AccessTtl(cfg) / 1000);
    }

    method ExchangeAuthorizationCode(now: int, client: Client, code: string, verifier: string, redirect: Option<string>,
                                     resource: Option<string>, access: string, refresh: string) returns (r: Response, written: bool)
      modifies this
      ensures Outcome(View(), r, written) == Do(cfg, old(View()), now, Redeem(client, code, verifier, redirect, resource, access, refresh))
    {
      if code !in codes || codes[code].expiresAt <= now || codes[code].clientId != client.id {
        return Failed, false;
      }
      var record := codes[code];
      if verifier == "" || cfg.digest(verifier) != record.challenge {
        return Failed, false;
      }
      if redirect.Some? && redirect.value != "" && redirect.value != record.redirectUri {
        return Failed, false;
      }
      codes := codes - {code};
      r := Issue(now, client.id, record.scopes, Or(resource, record.resource), access, refresh);
      written := true;
    }

    method ExchangeRefreshToken(now: int, client: Client, token: string, scopes: Option<seq<string>>, resource: Option<string>,
                                access: string, refresh: string) returns (r: Response, written: bool)
      modifies this
      ensures Outcome(View(), r, written) == Do(cfg, old(View()), now, Renew(client, token, scopes, resource, access, refresh))
    {
      if token !in tokens {
        return Failed, false;
      }
      var record := tokens[token];
      if record.kind != Refresh || record.expiresAt <= now || record.clientId != client.id {
        return Failed, false;
      }
      tokens := tokens - {token};
      var requested := Narrowed(cfg, scopes, record.scopes);
      r := Issue(now, client.id, requested, Or(resource, record.resource), access, refresh);
      written := true;
    }

    method VerifyAccessToken(now: int, token: string) returns (r: Response)
      ensures r == Do(cfg, View(), now, Verify(token)).response
    {
      if token !in tokens {
        return Failed;
      }
      var record := tokens[token];
      if record.kind != Access || record.expiresAt <= now {
        return Failed;
      }
      return Info(record.clientId, record.scopes, record.resource, record.expiresAt / 1000);
    }

    method RevokeToken(now: int, token: string) returns (r: Response, written: bool)
      modifies this`tokens
      ensures Outcome(View(), r, written) == Do(cfg, old(View()), now, Revoke(token))
    {
      tokens := tokens - {token};
      return Done, true;
    }
  }
}
