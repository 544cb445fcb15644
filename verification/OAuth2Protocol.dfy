// The grant protocol of src/handlers/oauth2.rs as a state machine.
//
// Each request handler is cut at its SQL statements; any number of handlers
// may be in flight and their statements interleave freely.  A handler may be
// dropped at any point (`Abort`).  The hash functions, the URL parser and the
// password check are parameters, so nothing below depends on their properties.
//
// `grants`, `issued`, `codeTag`, `tokenTag`, `minted` and `lostAt` are history
// variables: they name the rows (a grant is one authorization-code row,
// generation k its k-th refresh token) so that the safety statements can speak
// about a row's whole life.  The tags cover exactly the rows in every reachable
// state (`Tagged`), so no step's outcome depends on them.

module OAuth2Protocol {
  import opened Prelude
  import opened RedirectUri
  import opened ScopeWords
  import opened OAuth2Tables
  import opened OAuth2Ledger

  const AUTH_CODE_TTL_MINUTES: nat := 10
  const ACCESS_TOKEN_TTL_SECONDS: nat := 3600
  const REFRESH_TOKEN_TTL_DAYS: nat := 30

  datatype Env = Env(sha256Hex: string -> string,
                     s256: string -> string,
                     parse: Parser,
                     verifySecret: (string, string) -> bool)

  type Product = string

  /** What one authorization-code row was created with. */
  datatype Grant = Grant(subject: Subject, redirectUri: string, challenge: string)

  datatype Subject = Subject(clientId: string, userId: UserId, scope: string, resource: string)

  /** `vouchedAt`: when the product gate was last consulted; `delay`: time since then spent inside handlers. */
  datatype CodeTag = CodeTag(grant: nat, vouchedAt: nat, delay: nat)

  datatype AuthorizeParams = AuthorizeParams(clientId: string, redirectUri: string, scope: Option<string>,
                                             resource: string, challenge: string)

  datatype ExchangeForm = ExchangeForm(code: string, redirectUri: string, clientId: string, verifier: string)

  datatype SecretForm = SecretForm(clientId: string, secret: string, resource: string, scope: string)

  datatype Origin =
    | FromCode(link: Link, form: ExchangeForm)
    | FromRefresh(link: Link)
    | FromSecret(client: Client, request: SecretForm)

  datatype AccessToken = AccessToken(origin: Origin, subject: Subject, mintedAt: nat, expSeconds: nat,
                                     vouchedAt: nat, delay: nat)

  /** A request in flight, after the statements it has already executed. */
  datatype Handler =
    | Authorizing(userId: UserId, params: AuthorizeParams)
    | Vouched(userId: UserId, params: AuthorizeParams, scope: string, vouchedAt: nat)
    | CodeTaken(tag: CodeTag, row: AuthCode, form: ExchangeForm, takenAt: nat)
    | TokenTaken(next: Link, rotated: RefreshToken, clientId: string)
    | SecretAccepted(client: Client, request: SecretForm)
    | Admitted(origin: Origin, subject: Subject, vouchedAt: nat)
    | Ready(origin: Origin, subject: Subject, vouchedAt: nat, delay: nat, since: nat)
    | Signed(link: Link, subject: Subject)
    | Logging(userId: UserId)

  datatype State = State(
    clock: nat,
    db: Tables,
    entitled: set<(UserId, Product)>,
    handlers: map<nat, Handler>,
    grants: seq<Grant>,
    issued: seq<nat>,
    codeTag: map<string, CodeTag>,
    tokenTag: map<string, Link>,
    minted: seq<AccessToken>,
    lostAt: map<(UserId, Product), nat>)

  /** What happens to the tables and the clock outside any modelled handler; each is one statement or transaction. */
  datatype RowEvent =
    | Tick(dt: nat)
    | AddUser(user: UserId)
    | RemoveUser(user: UserId)
    | Entitle(pairs: set<(UserId, Product)>)
    | Register(clientId: string, uris: seq<string>, scopes: seq<string>)
    | AddService(clientId: string, scopes: seq<string>, user: UserId, secretHash: string)
    | RemoveService(clientId: string, owner: Option<UserId>)
    | Revoke(raw: string)

  /** The next statement of one handler. */
  datatype Action =
    | Authorize(user: UserId, params: AuthorizeParams)
    | AuthorizeGate
    | IssueCode(code: string)
    | Exchange(form: ExchangeForm)
    | CheckExchange
    | Refresh(raw: string, clientId: string)
    | RefreshGate
    | ClientCredentials(request: SecretForm)
    | SecretGate
    | LoadUser
    | Mint
    | StoreRefresh(next: string)
    | Audit
    | Abort

  datatype Event = Rows(x: RowEvent) | At(h: nat, a: Action)

  // ── Environment steps ─────────────────────────────────────────────────────

  /** Replace the set of (user, product) pairs `user_has_product_access` answers yes to. */
  function SetEntitled(s: State, pairs: set<(UserId, Product)>): State {
    s.(entitled := pairs, lostAt := s.lostAt + (map q | q in s.entitled - pairs :: s.clock))
  }

  function WithRows(s: State, db: Tables): State {
    s.(db := db,
       codeTag := map c | c in s.codeTag && c in db.codes :: s.codeTag[c],
       tokenTag := map t | t in s.tokenTag && t in db.tokens :: s.tokenTag[t])
  }

  /**
   * The foreign key of the audit log refuses the deletion of a user it names.  Users who
   * own or lead a team cannot be deleted either; that is for the team tables to say.
   */
  function RemoveUserStep(s: State, user: UserId): State {
    if user in s.db.audited then s
    else
      var s1 := SetEntitled(s, set q | q in s.entitled && q.0 != user);
      WithRows(s1, DeleteUser(s1.db, user))
  }

  /** `register`: every URI must pass the scheme check, and only `mcp:tools` is granted, before the row is inserted. */
  function RegisterStep(env: Env, s: State, clientId: string, uris: seq<string>, scopes: seq<string>): State {
    if forall i :: 0 <= i < |uris| ==> Registrable(env.parse, uris[i])
    then s.(db := RegisterClient(s.db, clientId, uris, Filter(scopes, ["mcp:tools"])).0)
    else s
  }

  // ── Handlers, one statement at a time ─────────────────────────────────────

  function Put(s: State, h: nat, x: Handler): State { s.(handlers := s.handlers[h := x]) }

  function Drop(s: State, h: nat): State { s.(handlers := s.handlers - {h}) }

  /** `authorize_post`: load the client and match the redirect URI. */
  function AuthorizeStep(env: Env, s: State, h: nat, user: UserId, p: AuthorizeParams): State {
    if h in s.handlers || p.clientId !in s.db.clients then s
    else if Allowed(env.parse, s.db.clients[p.clientId].redirectUris, p.redirectUri)
    then Put(s, h, Authorizing(user, p))
    else s
  }

  /** The gate as every grant consults it; ungated resources pass. */
  predicate GateOpen(env: Env, s: State, user: UserId, resource: string) {
    var g := ResourceToProductGate(env.parse, resource);
    g.Some? ==> (user, g.value.product) in s.entitled
  }

  function CodeScope(env: Env, p: AuthorizeParams): string {
    var base := if p.scope.Some? then p.scope.value else "mcp:tools";
    var g := ResourceToProductGate(env.parse, p.resource);
    if g.Some? then base + " " + g.value.scope else base
  }

  function AuthorizeGateStep(env: Env, s: State, h: nat): State
    requires h in s.handlers && s.handlers[h].Authorizing?
  {
    var x := s.handlers[h];
    if GateOpen(env, s, x.userId, x.params.resource)
    then Put(s, h, Vouched(x.userId, x.params, CodeScope(env, x.params), s.clock))
    else Drop(s, h)
  }

  function IssueCodeStep(s: State, h: nat, code: string): State
    requires h in s.handlers && s.handlers[h].Vouched?
  {
    var x := s.handlers[h];
    var p := x.params;
    var row := AuthCode(p.clientId, x.userId, p.redirectUri, x.scope, p.resource, p.challenge, 0, None);
    var (db, r) := CreateAuthCode(s.db, code, row, s.clock, AUTH_CODE_TTL_MINUTES);
    if r.Err? then Drop(s, h)
    else Drop(s, h).(
           db := db,
           grants := s.grants + [Grant(Subject(p.clientId, x.userId, x.scope, p.resource), p.redirectUri, p.challenge)],
           issued := s.issued + [0],
           codeTag := s.codeTag[code := CodeTag(|s.grants|, x.vouchedAt, if x.vouchedAt <= s.clock then s.clock - x.vouchedAt else 0)])
  }

  /** `consume_auth_code`: the single UPDATE that opens `auth_code_grant`. */
  function ExchangeStep(s: State, h: nat, form: ExchangeForm): State {
    var (db, r) := ConsumeAuthCode(s.db, form.code, s.clock);
    if h in s.handlers || r.Err? || form.code !in s.codeTag then s
    else Put(s, h, CodeTaken(s.codeTag[form.code], r.value, form, s.clock)).(db := db)
  }

  /** The three comparisons of `auth_code_grant` after the code has been consumed. */
  predicate ExchangeMatches(env: Env, row: AuthCode, form: ExchangeForm) {
    && row.clientId == form.clientId
    && Allowed(env.parse, [row.redirectUri], form.redirectUri)
    && env.s256(form.verifier) == row.challenge
  }

  function CheckExchangeStep(env: Env, s: State, h: nat): State
    requires h in s.handlers && s.handlers[h].CodeTaken?
  {
    var x := s.handlers[h];
    if ExchangeMatches(env, x.row, x.form) && x.row.userId in s.db.users
    then Put(s, h, Ready(FromCode(Link(x.tag.grant, 0), x.form),
                         Subject(x.form.clientId, x.row.userId, x.row.scope, x.row.resource),
                         x.tag.vouchedAt, x.tag.delay, x.takenAt))
    else Drop(s, h)
  }

  /** `rotate_refresh_token`: the single UPDATE that opens `refresh_token_grant`. */
  function RefreshStep(env: Env, s: State, h: nat, raw: string, clientId: string): State {
    var hash := env.sha256Hex(raw);
    var (db, r) := RotateRefreshToken(s.db, hash, s.clock);
    if h in s.handlers || r.Err? || hash !in s.tokenTag then s
    else
      var l := s.tokenTag[hash];
      Put(s, h, TokenTaken(Link(l.grant, l.gen + 1), r.value, clientId)).(db := db)
  }

  function RefreshGateStep(env: Env, s: State, h: nat): State
    requires h in s.handlers && s.handlers[h].TokenTaken?
  {
    var x := s.handlers[h];
    if x.rotated.clientId == x.clientId && GateOpen(env, s, x.rotated.userId, x.rotated.resource)
    then Put(s, h, Admitted(FromRefresh(x.next),
                            Subject(x.clientId, x.rotated.userId, x.rotated.scope, x.rotated.resource), s.clock))
    else Drop(s, h)
  }

  /** `get_service_client` and the secret check of `client_credentials_grant`. */
  function SecretStep(env: Env, s: State, h: nat, form: SecretForm): State {
    if h in s.handlers || form.clientId !in s.db.clients then s
    else
      var c := s.db.clients[form.clientId];
      if IsServiceClient(c) && env.verifySecret(form.secret, c.secretHash.value)
      then Put(s, h, SecretAccepted(c, form))
      else s
  }

  /** The requested words the client's list allows, and behind a gate the gate's own scope. */
  function SecretScope(env: Env, c: Client, form: SecretForm): string {
    var scope := Join(Filter(Words(form.scope), c.allowedScopes));
    var g := ResourceToProductGate(env.parse, form.resource);
    if g.Some? && g.value.scope !in Words(scope)
    then if scope == "" then g.value.scope else scope + " " + g.value.scope
    else scope
  }

  function ServiceSubject(env: Env, c: Client, form: SecretForm): Subject
    requires c.serviceUser.Some?
  {
    Subject(form.clientId, c.serviceUser.value, SecretScope(env, c, form), form.resource)
  }

  function SecretGateStep(env: Env, s: State, h: nat): State
    requires h in s.handlers && s.handlers[h].SecretAccepted?
  {
    var x := s.handlers[h];
    if x.client.serviceUser.Some? && GateOpen(env, s, x.client.serviceUser.value, x.request.resource)
    then Put(s, h, Admitted(FromSecret(x.client, x.request), ServiceSubject(env, x.client, x.request), s.clock))
    else Drop(s, h)
  }

  /** `get_user_by_id` before minting on the refresh and client-credentials paths. */
  function LoadUserStep(s: State, h: nat): State
    requires h in s.handlers && s.handlers[h].Admitted?
  {
    var x := s.handlers[h];
    if x.subject.userId in s.db.users
    then Put(s, h, Ready(x.origin, x.subject, x.vouchedAt, 0, x.vouchedAt))
    else Drop(s, h)
  }

  /** `mint_access_token`: the signature exists from here on, whether or not it is ever delivered. */
  function MintStep(s: State, h: nat): State
    requires h in s.handlers && s.handlers[h].Ready?
  {
    var x := s.handlers[h];
    var delay := x.delay + (if x.since <= s.clock then s.clock - x.since else 0);
    var token := AccessToken(x.origin, x.subject, s.clock, ClaimSeconds(s.clock, ACCESS_TOKEN_TTL_SECONDS),
                             x.vouchedAt, delay);
    var s1 := s.(minted := s.minted + [token]);
    Put(s1, h, if x.origin.FromSecret? then Logging(x.subject.userId) else Signed(x.origin.link, x.subject))
  }

  /** `create_refresh_token`: the INSERT that both chain-extending grants depend on. */
  function StoreRefreshStep(env: Env, s: State, h: nat, raw: string): State
    requires h in s.handlers && s.handlers[h].Signed? && s.handlers[h].link.grant < |s.issued|
  {
    var x := s.handlers[h];
    var hash := env.sha256Hex(raw);
    var row := RefreshToken(x.subject.clientId, x.subject.userId, x.subject.scope, x.subject.resource, 0, None);
    var (db, r) := CreateRefreshToken(s.db, hash, row, s.clock, REFRESH_TOKEN_TTL_DAYS);
    if r.Err? then Drop(s, h)
    else Put(s, h, Logging(x.subject.userId)).(
           db := db,
           tokenTag := s.tokenTag[hash := x.link],
           issued := s.issued[x.link.grant := x.link.gen + 1])
  }

  /** `audit_log`: the last statement of every grant that succeeds. */
  function AuditStep(s: State, h: nat): State
    requires h in s.handlers && s.handlers[h].Logging?
  {
    Drop(s, h).(db := AuditLog(s.db, s.handlers[h].userId))
  }

  predicate Enabled(s: State, h: nat, a: Action) {
    match a
    case AuthorizeGate => h in s.handlers && s.handlers[h].Authorizing?
    case IssueCode(_) => h in s.handlers && s.handlers[h].Vouched?
    case CheckExchange => h in s.handlers && s.handlers[h].CodeTaken?
    case RefreshGate => h in s.handlers && s.handlers[h].TokenTaken?
    case SecretGate => h in s.handlers && s.handlers[h].SecretAccepted?
    case LoadUser => h in s.handlers && s.handlers[h].Admitted?
    case Mint => h in s.handlers && s.handlers[h].Ready?
    case StoreRefresh(_) => h in s.handlers && s.handlers[h].Signed? && s.handlers[h].link.grant < |s.issued|
    case Audit => h in s.handlers && s.handlers[h].Logging?
    case _ => true
  }

  function RowStep(env: Env, s: State, x: RowEvent): State {
    match x
    case Tick(dt) => s.(clock := s.clock + dt)
    case AddUser(u) => s.(db := s.db.(users := s.db.users + {u}))
    case RemoveUser(u) => RemoveUserStep(s, u)
    case Entitle(pairs) => SetEntitled(s, pairs)
    case Register(c, uris, scopes) => RegisterStep(env, s, c, uris, scopes)
    case AddService(c, scopes, u, hash) => s.(db := CreateServiceClient(s.db, c, scopes, u, hash).0)
    case RemoveService(c, owner) => WithRows(s, DeleteServiceClient(s.db, c, owner).0)
    case Revoke(raw) => s.(db := RevokeRefreshToken(s.db, env.sha256Hex(raw), s.clock))
  }

  /** An action that is not the handler's next one leaves the state alone. */
  function HandlerStep(env: Env, s: State, h: nat, a: Action): State {
    if !Enabled(s, h, a) then s else
    match a
    case Authorize(u, p) => AuthorizeStep(env, s, h, u, p)
    case AuthorizeGate => AuthorizeGateStep(env, s, h)
    case IssueCode(code) => IssueCodeStep(s, h, code)
    case Exchange(form) => ExchangeStep(s, h, form)
    case CheckExchange => CheckExchangeStep(env, s, h)
    case Refresh(raw, c) => RefreshStep(env, s, h, raw, c)
    case RefreshGate => RefreshGateStep(env, s, h)
    case ClientCredentials(request) => SecretStep(env, s, h, request)
    case SecretGate => SecretGateStep(env, s, h)
    case LoadUser => LoadUserStep(s, h)
    case Mint => MintStep(s, h)
    case StoreRefresh(raw) => StoreRefreshStep(env, s, h, raw)
    case Audit => AuditStep(s, h)
    case Abort => Drop(s, h)
  }

  function Step(env: Env, s: State, e: Event): State {
    match e
    case Rows(x) => RowStep(env, s, x)
    case At(h, a) => HandlerStep(env, s, h, a)
  }

  function Run(env: Env, s: State, es: seq<Event>): State
    decreases es
  {
    if es == [] then s else Run(env, Step(env, s, es[0]), es[1..])
  }

  lemma {:induction false} RunAppend(env: Env, s: State, es: seq<Event>, e: Event)
    ensures Run(env, s, es + [e]) == Step(env, Run(env, s, es), e)
    decreases |es|
  {
    hide Step;
    if es == [] {
      assert ([] + [e])[1..] == [];
    } else {
      assert (es + [e])[0] == es[0] && (es + [e])[1..] == es[1..] + [e];
      RunAppend(env, Step(env, s, es[0]), es[1..], e);
    }
  }

  lemma RunTwo(env: Env, s: State, a: Event, b: Event)
    ensures Run(env, s, [a, b]) == Step(env, Step(env, s, a), b)
  {
    hide Step;
    RunAppend(env, s, [a], b);
    RunAppend(env, s, [], a);
    assert [a] + [b] == [a, b] && [] + [a] == [a];
  }

  lemma {:induction false} RunConcat(env: Env, s: State, es: seq<Event>, fs: seq<Event>)
    ensures Run(env, s, es + fs) == Run(env, Run(env, s, es), fs)
    decreases |es|
  {
    hide Step;
    if es == [] {
      assert es + fs == fs;
    } else {
      assert (es + fs)[0] == es[0] && (es + fs)[1..] == es[1..] + fs;
      RunConcat(env, Step(env, s, es[0]), es[1..], fs);
    }
  }

  /** Two pre-registered first-party clients, no users, no codes, no tokens (migration 019). */
  const SEEDED: map<string, Client> :=
    map["claude-desktop" := Client(["http://localhost/callback"], ["mcp:tools"], None, None),
        "claude-code" := Client(["http://localhost/callback"], ["mcp:tools"], None, None)]

  const INIT: State :=
    State(0, Tables({}, SEEDED, map[], map[], {}), {}, map[], [], [], map[], map[], [], map[])

  function Reach(env: Env, es: seq<Event>): State { Run(env, INIT, es) }
}
