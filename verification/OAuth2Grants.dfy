// Over every interleaving: whatever descends from an authorization code keeps
// what the code was issued for, and the first access token is only ever signed
// for a caller that proved the code's client, redirect URI and PKCE verifier.

module OAuth2Grants {
  import opened Prelude
  import opened RedirectUri
  import opened ScopeWords
  import opened OAuth2Tables
  import opened OAuth2Ledger
  import opened OAuth2Protocol
  import opened OAuth2Chains

  // ── Rows, handlers and signatures agree with their grant ──────────────────

  predicate CodeOk(row: AuthCode, g: Grant) {
    row.redirectUri == g.redirectUri && row.challenge == g.challenge &&
    Subject(row.clientId, row.userId, row.scope, row.resource) == g.subject
  }

  predicate TokenOk(row: RefreshToken, g: Grant) {
    Subject(row.clientId, row.userId, row.scope, row.resource) == g.subject
  }

  /** The caller presented the code's client, a matching redirect URI and a verifier that hashes to the challenge. */
  predicate ProvedBy(env: Env, g: Grant, form: ExchangeForm) {
    && form.clientId == g.subject.clientId
    && Allowed(env.parse, [g.redirectUri], form.redirectUri)
    && env.s256(form.verifier) == g.challenge
  }

  /** The caller showed a secret that the service client's stored hash verifies. */
  predicate SecretProved(env: Env, c: Client, request: SecretForm) {
    IsServiceClient(c) && env.verifySecret(request.secret, c.secretHash.value)
  }

  predicate OriginOk(env: Env, o: Origin, subject: Subject, grants: seq<Grant>) {
    match o
    case FromCode(l, form) =>
      l.grant < |grants| && l.gen == 0 && subject == grants[l.grant].subject && ProvedBy(env, grants[l.grant], form)
    case FromRefresh(l) =>
      l.grant < |grants| && l.gen > 0 && subject == grants[l.grant].subject
    case FromSecret(c, request) => SecretProved(env, c, request) && subject == ServiceSubject(env, c, request)
  }

  predicate HandlerOk(env: Env, x: Handler, grants: seq<Grant>) {
    match x
    case CodeTaken(tag, row, _, _) => tag.grant < |grants| && CodeOk(row, grants[tag.grant])
    case TokenTaken(next, row, _) => next.grant < |grants| && next.gen > 0 && TokenOk(row, grants[next.grant])
    case Admitted(o, subject, _) => OriginOk(env, o, subject, grants) && !o.FromCode?
    case Ready(o, subject, _, _, _) => OriginOk(env, o, subject, grants)
    case SecretAccepted(c, request) => SecretProved(env, c, request)
    case Signed(l, subject) => l.grant < |grants| && subject == grants[l.grant].subject
    case _ => true
  }

  ghost predicate CodesOk(codes: map<string, AuthCode>, tag: map<string, CodeTag>, grants: seq<Grant>) {
    forall c | c in tag :: c in codes && tag[c].grant < |grants| && CodeOk(codes[c], grants[tag[c].grant])
  }

  ghost predicate TokensOk(tokens: map<string, RefreshToken>, tag: map<string, Link>, grants: seq<Grant>) {
    forall t | t in tag :: t in tokens && tag[t].grant < |grants| && TokenOk(tokens[t], grants[tag[t].grant])
  }

  ghost predicate HandlersOk(env: Env, handlers: map<nat, Handler>, grants: seq<Grant>) {
    forall h | h in handlers :: HandlerOk(env, handlers[h], grants)
  }

  ghost predicate MintedOk(env: Env, minted: seq<AccessToken>, grants: seq<Grant>) {
    forall i | 0 <= i < |minted| :: OriginOk(env, minted[i].origin, minted[i].subject, grants)
  }

  ghost predicate GrantInv(env: Env, s: State) {
    && Tagged(s)
    && CodesOk(s.db.codes, s.codeTag, s.grants)
    && TokensOk(s.db.tokens, s.tokenTag, s.grants)
    && HandlersOk(env, s.handlers, s.grants)
    && MintedOk(env, s.minted, s.grants)
  }

  lemma MoreGrants(env: Env, s: State, g: Grant)
    requires GrantInv(env, s)
    ensures CodesOk(s.db.codes, s.codeTag, s.grants + [g])
    ensures TokensOk(s.db.tokens, s.tokenTag, s.grants + [g])
    ensures HandlersOk(env, s.handlers, s.grants + [g])
    ensures MintedOk(env, s.minted, s.grants + [g])
  {
  }

  lemma HandlersPut(env: Env, handlers: map<nat, Handler>, grants: seq<Grant>, h: nat, x: Handler)
    requires HandlersOk(env, handlers, grants) && HandlerOk(env, x, grants)
    ensures HandlersOk(env, handlers[h := x], grants)
  {
  }

  lemma CodesPut(codes: map<string, AuthCode>, tag: map<string, CodeTag>, grants: seq<Grant>,
                 c: string, row: AuthCode, x: CodeTag)
    requires CodesOk(codes, tag, grants) && x.grant < |grants| && CodeOk(row, grants[x.grant])
    ensures CodesOk(codes[c := row], tag[c := x], grants)
  {
  }

  lemma GrantPut(env: Env, s: State, s': State, h: nat)
    requires GrantInv(env, s) && MovesOn(s, s', h) && Tagged(s')
    requires h in s'.handlers ==> HandlerOk(env, s'.handlers[h], s'.grants)
    ensures GrantInv(env, s')
  {
    if h in s'.handlers {
      HandlersPut(env, s.handlers, s.grants, h, s'.handlers[h]);
    }
  }

  lemma CheckExchangeOk(env: Env, s: State, h: nat)
    requires GrantInv(env, s) && Enabled(s, h, CheckExchange)
    ensures h in CheckExchangeStep(env, s, h).handlers ==>
              HandlerOk(env, CheckExchangeStep(env, s, h).handlers[h], s.grants)
  {
    assert HandlerOk(env, s.handlers[h], s.grants);
  }

  lemma RefreshStepsOk(env: Env, s: State, h: nat)
    requires GrantInv(env, s)
    ensures Enabled(s, h, RefreshGate) && h in RefreshGateStep(env, s, h).handlers ==>
              HandlerOk(env, RefreshGateStep(env, s, h).handlers[h], s.grants)
    ensures Enabled(s, h, LoadUser) && h in LoadUserStep(s, h).handlers ==>
              HandlerOk(env, LoadUserStep(s, h).handlers[h], s.grants)
  {
    if h in s.handlers {
      assert HandlerOk(env, s.handlers[h], s.grants);
    }
  }

  lemma GrantOtherAction(env: Env, s: State, h: nat, a: Action)
    requires GrantInv(env, s) && !MovesChain(a) && Enabled(s, h, a) && Tagged(HandlerStep(env, s, h, a))
    ensures GrantInv(env, HandlerStep(env, s, h, a))
  {
    OtherActionsMoveOn(env, s, h, a);
    RefreshStepsOk(env, s, h);
    if a.CheckExchange? { CheckExchangeOk(env, s, h); }
    GrantPut(env, s, HandlerStep(env, s, h, a), h);
  }

  lemma GrantIssueCode(env: Env, s: State, h: nat, code: string)
    requires GrantInv(env, s) && Enabled(s, h, IssueCode(code)) && Tagged(IssueCodeStep(s, h, code))
    ensures GrantInv(env, IssueCodeStep(s, h, code))
  {
    var s' := IssueCodeStep(s, h, code);
    if s'.grants != s.grants {
      var g := s'.grants[|s.grants|];
      MoreGrants(env, s, g);
      CodesPut(s.db.codes, s.codeTag, s.grants + [g], code, s'.db.codes[code], s'.codeTag[code]);
    }
  }

  lemma GrantExchange(env: Env, s: State, h: nat, form: ExchangeForm)
    requires GrantInv(env, s) && Tagged(ExchangeStep(s, h, form))
    ensures GrantInv(env, ExchangeStep(s, h, form))
  {
    hide HandlersOk, MintedOk, TokensOk, Allowed;
    var s' := ExchangeStep(s, h, form);
    if s' != s {
      var tag := s.codeTag[form.code];
      assert CodeOk(s.db.codes[form.code], s.grants[tag.grant]);
      HandlersPut(env, s.handlers, s.grants, h, s'.handlers[h]);
      CodesPut(s.db.codes, s.codeTag, s.grants, form.code, s'.db.codes[form.code], tag);
      assert s.codeTag[form.code := tag] == s.codeTag;
    }
  }

  lemma GrantRefresh(env: Env, s: State, h: nat, raw: string, clientId: string)
    requires GrantInv(env, s) && Tagged(RefreshStep(env, s, h, raw, clientId))
    ensures GrantInv(env, RefreshStep(env, s, h, raw, clientId))
  {
    var s' := RefreshStep(env, s, h, raw, clientId);
    if s' != s {
      var t := env.sha256Hex(raw);
      var tag := s.tokenTag[t];
      assert TokenOk(s.db.tokens[t], s.grants[tag.grant]);
      HandlersPut(env, s.handlers, s.grants, h, s'.handlers[h]);
      assert s.tokenTag[t := tag] == s.tokenTag;
    }
  }

  lemma GrantMint(env: Env, s: State, h: nat)
    requires GrantInv(env, s) && Enabled(s, h, Mint) && Tagged(MintStep(s, h))
    ensures GrantInv(env, MintStep(s, h))
  {
    var s' := MintStep(s, h);
    var x := s.handlers[h];
    assert HandlerOk(env, x, s.grants);
    HandlersPut(env, s.handlers, s.grants, h, s'.handlers[h]);
    assert MintedOk(env, s'.minted, s.grants);
  }

  lemma GrantStore(env: Env, s: State, h: nat, raw: string)
    requires GrantInv(env, s) && Enabled(s, h, StoreRefresh(raw)) && Tagged(StoreRefreshStep(env, s, h, raw))
    ensures GrantInv(env, StoreRefreshStep(env, s, h, raw))
  {
    var s' := StoreRefreshStep(env, s, h, raw);
    var x := s.handlers[h];
    assert HandlerOk(env, x, s.grants);
    hide HandlersOk, MintedOk, CodesOk, TokensOk;
    if s' != Drop(s, h) {
      HandlersPut(env, s.handlers, s.grants, h, s'.handlers[h]);
    }
  }

  lemma StepKeepsGrants(env: Env, s: State, e: Event)
    requires GrantInv(env, s)
    ensures GrantInv(env, Step(env, s, e))
  {
    assert Tagged(Step(env, s, e)) by { StepRefinesLedger(env, s, e); }
    match e
    case Rows(x) => RowEventsShrink(env, s, x);
    case At(h, a) =>
      if Enabled(s, h, a) {
        match a
        case IssueCode(code) => GrantIssueCode(env, s, h, code);
        case Exchange(form) => GrantExchange(env, s, h, form);
        case Refresh(raw, c) => GrantRefresh(env, s, h, raw, c);
        case Mint => GrantMint(env, s, h);
        case StoreRefresh(raw) => GrantStore(env, s, h, raw);
        case _ => GrantOtherAction(env, s, h, a);
      }
  }

  lemma {:induction false} RunKeepsGrants(env: Env, s: State, es: seq<Event>)
    requires GrantInv(env, s)
    ensures GrantInv(env, Run(env, s, es))
    decreases es
  {
    if es != [] {
      StepKeepsGrants(env, s, es[0]);
      RunKeepsGrants(env, Step(env, s, es[0]), es[1..]);
    }
  }

  // ── Clients behind grants are permanent ───────────────────────────────────

  /** A public client of this id exists and its registered list admits the URI. */
  predicate Registered(env: Env, clients: map<string, Client>, id: string, uri: string) {
    id in clients && clients[id].secretHash.None? && Allowed(env.parse, clients[id].redirectUris, uri)
  }

  /** Service clients, and only they, carry a secret and a user; they have no redirect URIs at all. */
  predicate ServiceShape(c: Client) {
    c.secretHash.Some? == c.serviceUser.Some? && (c.secretHash.Some? ==> c.redirectUris == [])
  }

  predicate RequestRegistered(env: Env, clients: map<string, Client>, x: Handler) {
    (x.Authorizing? || x.Vouched?) ==> Registered(env, clients, x.params.clientId, x.params.redirectUri)
  }

  ghost predicate ClientInv(env: Env, s: State) {
    && (forall c | c in s.db.clients :: ServiceShape(s.db.clients[c]))
    && (forall i | 0 <= i < |s.grants| :: Registered(env, s.db.clients, s.grants[i].subject.clientId, s.grants[i].redirectUri))
    && (forall h | h in s.handlers :: RequestRegistered(env, s.db.clients, s.handlers[h]))
  }

  /** Public clients are never changed or removed. */
  ghost predicate PublicKept(a: map<string, Client>, b: map<string, Client>) {
    && (forall c | c in a && a[c].secretHash.None? :: c in b && b[c] == a[c])
    && (forall c | c in b :: (c in a && b[c] == a[c]) || ServiceShape(b[c]))
  }

  lemma InsertsKeepPublic(env: Env, t: Tables, c: string, uris: seq<string>, scopes: seq<string>, u: UserId, hash: string)
    requires forall c | c in t.clients :: ServiceShape(t.clients[c])
    ensures PublicKept(t.clients, RegisterClient(t, c, uris, scopes).0.clients)
    ensures PublicKept(t.clients, CreateServiceClient(t, c, scopes, u, hash).0.clients)
  {
  }

  lemma RowEventsKeepPublic(env: Env, s: State, x: RowEvent)
    requires ClientInv(env, s)
    ensures PublicKept(s.db.clients, RowStep(env, s, x).db.clients)
  {
    hide Filter, PublicKept, DeleteServiceClient, DeleteUser, RegisterClient, CreateServiceClient;
    PublicKeptItself(s.db.clients);
    match x
    case RemoveUser(u) => DeleteUserKeepsPublic(s.db, u);
    case RemoveService(c, owner) => DeleteServiceKeepsPublic(s.db, c, owner);
    case Register(c, uris, scopes) => InsertsKeepPublic(env, s.db, c, uris, Filter(scopes, ["mcp:tools"]), 0, "");
    case AddService(c, scopes, u, hash) => InsertsKeepPublic(env, s.db, c, [], scopes, u, hash);
    case _ =>
  }

  lemma PublicKeptItself(clients: map<string, Client>)
    ensures PublicKept(clients, clients)
  {
  }

  lemma DeleteUserKeepsPublic(t: Tables, u: UserId)
    requires forall c | c in t.clients :: ServiceShape(t.clients[c])
    ensures PublicKept(t.clients, DeleteUser(t, u).clients)
  {
  }

  lemma DeleteServiceKeepsPublic(t: Tables, c: string, owner: Option<UserId>)
    requires forall c | c in t.clients :: ServiceShape(t.clients[c])
    ensures PublicKept(t.clients, DeleteServiceClient(t, c, owner).0.clients)
  {
  }

  predicate StartsNothing(s: State, h: nat) {
    h in s.handlers ==> !s.handlers[h].Authorizing? && !s.handlers[h].Vouched?
  }

  lemma ChainStepsStartNothing(env: Env, s: State, h: nat)
    ensures Enabled(s, h, CheckExchange) ==> StartsNothing(CheckExchangeStep(env, s, h), h)
    ensures Enabled(s, h, RefreshGate) ==> StartsNothing(RefreshGateStep(env, s, h), h)
    ensures Enabled(s, h, LoadUser) ==> StartsNothing(LoadUserStep(s, h), h)
  {
  }

  lemma OthersRegistered(env: Env, s: State, h: nat, a: Action)
    requires ClientInv(env, s) && Enabled(s, h, a) && !a.Authorize? && !a.AuthorizeGate? && !MovesChain(a)
    requires h in HandlerStep(env, s, h, a).handlers
    ensures RequestRegistered(env, s.db.clients, HandlerStep(env, s, h, a).handlers[h])
  {
    ChainStepsStartNothing(env, s, h);
  }

  lemma IssueCodeKeepsClients(env: Env, s: State, h: nat, code: string)
    requires ClientInv(env, s) && Enabled(s, h, IssueCode(code))
    ensures ClientInv(env, IssueCodeStep(s, h, code))
  {
    assert RequestRegistered(env, s.db.clients, s.handlers[h]);
  }

  lemma MovesChainKeepsClients(env: Env, s: State, h: nat, a: Action)
    requires ClientInv(env, s) && Enabled(s, h, a) && MovesChain(a)
    ensures ClientInv(env, HandlerStep(env, s, h, a))
  {
    if a.IssueCode? { IssueCodeKeepsClients(env, s, h, a.code); }
  }

  lemma StepKeepsClients(env: Env, s: State, e: Event)
    requires Tagged(s) && ClientInv(env, s)
    ensures ClientInv(env, Step(env, s, e))
  {
    match e
    case Rows(x) =>
      RowEventsShrink(env, s, x);
      RowEventsKeepPublic(env, s, x);
    case At(h, a) =>
      if !Enabled(s, h, a) {
      } else if MovesChain(a) {
        MovesChainKeepsClients(env, s, h, a);
      } else {
        OtherActionsMoveOn(env, s, h, a);
        if h in HandlerStep(env, s, h, a).handlers && !a.Authorize? && !a.AuthorizeGate? {
          OthersRegistered(env, s, h, a);
        }
      }
  }

  lemma {:induction false} RunKeepsClients(env: Env, s: State, es: seq<Event>)
    requires Tagged(s) && ClientInv(env, s)
    ensures ClientInv(env, Run(env, s, es))
    decreases es
  {
    if es != [] {
      StepKeepsClients(env, s, es[0]);
      assert Tagged(Step(env, s, es[0])) by { StepRefinesLedger(env, s, es[0]); }
      RunKeepsClients(env, Step(env, s, es[0]), es[1..]);
    }
  }

  // ── Stored redirect URIs ──────────────────────────────────────────────────

  /** Every URI of every stored list passes the registration check. */
  predicate ListsRegistrable(env: Env, clients: map<string, Client>) {
    forall c, i :: c in clients && 0 <= i < |clients[c].redirectUris| ==> Registrable(env.parse, clients[c].redirectUris[i])
  }

  lemma RowsKeepLists(env: Env, s: State, x: RowEvent)
    requires ListsRegistrable(env, s.db.clients)
    ensures ListsRegistrable(env, RowStep(env, s, x).db.clients)
  {
    hide Filter, Registrable;
  }

  /** No handler statement writes a client row. */
  lemma HandlersKeepClientRows(env: Env, s: State, h: nat, a: Action)
    ensures HandlerStep(env, s, h, a).db.clients == s.db.clients
  {
    if !MovesChain(a) {
      OtherActionsMoveOn(env, s, h, a);
      hide HandlerStep;
    }
  }

  lemma {:induction false} RunKeepsLists(env: Env, s: State, es: seq<Event>)
    requires ListsRegistrable(env, s.db.clients)
    ensures ListsRegistrable(env, Run(env, s, es).db.clients)
    decreases es
  {
    hide ListsRegistrable, RowStep, HandlerStep;
    if es != [] {
      match es[0] {
        case Rows(x) => RowsKeepLists(env, s, x);
        case At(h, a) => HandlersKeepClientRows(env, s, h, a);
      }
      RunKeepsLists(env, Step(env, s, es[0]), es[1..]);
    }
  }

  const SEEDED_URI := "http://localhost/callback"

  /**
   * In every reachable state every stored list holds only registrable URIs,
   * exactly if the one URI that migration 019 seeds is registrable itself.
   */
  lemma StoredUrisRegistrableIff(env: Env)
    ensures (forall es :: ListsRegistrable(env, Reach(env, es).db.clients)) <==> Registrable(env.parse, SEEDED_URI)
  {
    hide Registrable;
    if Registrable(env.parse, SEEDED_URI) {
      forall es ensures ListsRegistrable(env, Reach(env, es).db.clients) { RunKeepsLists(env, INIT, es); }
    } else {
      assert Reach(env, []).db.clients == SEEDED;
      assert SEEDED["claude-code"].redirectUris[0] == SEEDED_URI;
      assert !ListsRegistrable(env, Reach(env, []).db.clients);
    }
  }
}
