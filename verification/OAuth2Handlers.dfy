// The token-table handlers of src/handlers/oauth2.rs run from start to finish,
// performed in place, and what connects them to the interleaved protocol: each
// is one particular uninterrupted run of it.

module OAuth2Handlers {
  import opened Prelude
  import opened RedirectUri
  import opened OAuth2Tables
  import opened OAuth2Protocol
  import opened OAuth2Chains

  datatype Issued = Issued(subject: Subject, expSeconds: nat, refresh: string)

  /** The gate of `resource_to_product_gate` and `user_has_product_access`. */
  predicate Gate(env: Env, entitled: set<(UserId, Product)>, user: UserId, resource: string) {
    var g := ResourceToProductGate(env.parse, resource);
    g.Some? ==> (user, g.value.product) in entitled
  }

  /** Sign, store the successor refresh token, write the audit row; the shared tail of both chain-extending grants. */
  function Finish(env: Env, t: Tables, subject: Subject, now: nat, next: string): (Tables, Result<Issued>) {
    var row := RefreshToken(subject.clientId, subject.userId, subject.scope, subject.resource, 0, None);
    var (t1, r) := CreateRefreshToken(t, env.sha256Hex(next), row, now, REFRESH_TOKEN_TTL_DAYS);
    if r.Err? then (t1, Err(r.error))
    else (AuditLog(t1, subject.userId), Ok(Issued(subject, ClaimSeconds(now, ACCESS_TOKEN_TTL_SECONDS), next)))
  }

  /** `auth_code_grant`: the code is spent by the first statement, whatever the checks after it say. */
  function AuthCodeGrant(env: Env, t: Tables, form: ExchangeForm, now: nat, next: string): (Tables, Result<Issued>) {
    var (t1, r) := ConsumeAuthCode(t, form.code, now);
    if r.Err? then (t1, Err(r.error))
    else if r.value.clientId != form.clientId then (t1, Err(InvalidToken))
    else if !Allowed(env.parse, [r.value.redirectUri], form.redirectUri) then (t1, Err(Validation))
    else if env.s256(form.verifier) != r.value.challenge then (t1, Err(InvalidToken))
    else if r.value.userId !in t1.users then (t1, Err(NotFound))
    else Finish(env, t1, Subject(form.clientId, r.value.userId, r.value.scope, r.value.resource), now, next)
  }

  /** `refresh_token_grant`: the token is rotated by the first statement, whatever the checks after it say. */
  function RefreshTokenGrant(env: Env, t: Tables, entitled: set<(UserId, Product)>, raw: string, clientId: string,
                             now: nat, next: string)
    : (Tables, Result<Issued>)
  {
    var (t1, r) := RotateRefreshToken(t, env.sha256Hex(raw), now);
    if r.Err? then (t1, Err(r.error))
    else if r.value.clientId != clientId then (t1, Err(InvalidToken))
    else if !Gate(env, entitled, r.value.userId, r.value.resource) then (t1, Err(AccessDenied))
    else if r.value.userId !in t1.users then (t1, Err(NotFound))
    else Finish(env, t1, Subject(clientId, r.value.userId, r.value.scope, r.value.resource), now, next)
  }

  /** `authorize_post` from the client lookup on, through `build_code_redirect`. */
  function IssueCodeFor(env: Env, t: Tables, entitled: set<(UserId, Product)>, user: UserId, p: AuthorizeParams, now: nat, code: string)
    : (Tables, Result<string>)
  {
    if p.clientId !in t.clients then (t, Err(Validation))
    else if !Allowed(env.parse, t.clients[p.clientId].redirectUris, p.redirectUri) then (t, Err(Validation))
    else if !Gate(env, entitled, user, p.resource) then (t, Err(AccessDenied))
    else
      var row := AuthCode(p.clientId, user, p.redirectUri, CodeScope(env, p), p.resource, p.challenge, 0, None);
      var (t1, r) := CreateAuthCode(t, code, row, now, AUTH_CODE_TTL_MINUTES);
      (t1, if r.Err? then Err(r.error) else Ok(code))
  }

  // ── In place ──────────────────────────────────────────────────────────────

  method FinishGrant(tables: AuthTables, env: Env, subject: Subject, now: nat, next: string) returns (r: Result<Issued>)
    modifies tables
    ensures (tables.Rows(), r) == Finish(env, old(tables.Rows()), subject, now, next)
  {
    var row := RefreshToken(subject.clientId, subject.userId, subject.scope, subject.resource, 0, None);
    var stored := tables.InsertRefreshToken(env.sha256Hex(next), row, now, REFRESH_TOKEN_TTL_DAYS);
    if stored.Err? { return Err(stored.error); }
    tables.Audit(subject.userId);
    return Ok(Issued(subject, ClaimSeconds(now, ACCESS_TOKEN_TTL_SECONDS), next));
  }

  method ExchangeCode(tables: AuthTables, env: Env, form: ExchangeForm, now: nat, next: string) returns (r: Result<Issued>)
    modifies tables
    ensures (tables.Rows(), r) == AuthCodeGrant(env, old(tables.Rows()), form, now, next)
    ensures !Exchangeable(tables.Rows(), form.code, now)
    ensures r.Ok? ==> r.value.subject.userId in tables.Rows().audited
  {
    var taken := tables.UseAuthCode(form.code, now);
    if taken.Err? { return Err(taken.error); }
    var row := taken.value;
    if row.clientId != form.clientId { return Err(InvalidToken); }
    var matches := RedirectUriAllowed(env.parse, [row.redirectUri], form.redirectUri);
    if !matches { return Err(Validation); }
    if env.s256(form.verifier) != row.challenge { return Err(InvalidToken); }
    if row.userId !in tables.users { return Err(NotFound); }
    r := FinishGrant(tables, env, Subject(form.clientId, row.userId, row.scope, row.resource), now, next);
  }

  method RefreshGrant(tables: AuthTables, env: Env, entitled: set<(UserId, Product)>, raw: string, clientId: string,
                      now: nat, next: string)
    returns (r: Result<Issued>)
    modifies tables
    ensures (tables.Rows(), r) == RefreshTokenGrant(env, old(tables.Rows()), entitled, raw, clientId, now, next)
    ensures !Rotatable(tables.Rows(), env.sha256Hex(raw), now)
    ensures r.Ok? ==> r.value.subject.userId in tables.Rows().audited
  {
    var rotated := tables.Rotate(env.sha256Hex(raw), now);
    if rotated.Err? { return Err(rotated.error); }
    var row := rotated.value;
    if row.clientId != clientId { return Err(InvalidToken); }
    if !Gate(env, entitled, row.userId, row.resource) { return Err(AccessDenied); }
    if row.userId !in tables.users { return Err(NotFound); }
    r := FinishGrant(tables, env, Subject(clientId, row.userId, row.scope, row.resource), now, next);
  }

  method BuildCode(tables: AuthTables, env: Env, entitled: set<(UserId, Product)>, user: UserId, p: AuthorizeParams,
                   now: nat, code: string)
    returns (r: Result<string>)
    modifies tables
    ensures (tables.Rows(), r) == IssueCodeFor(env, old(tables.Rows()), entitled, user, p, now, code)
  {
    if p.clientId !in tables.clients { return Err(Validation); }
    var matches := RedirectUriAllowed(env.parse, tables.clients[p.clientId].redirectUris, p.redirectUri);
    if !matches { return Err(Validation); }
    if !Gate(env, entitled, user, p.resource) { return Err(AccessDenied); }
    var row := AuthCode(p.clientId, user, p.redirectUri, CodeScope(env, p), p.resource, p.challenge, 0, None);
    var stored := tables.InsertAuthCode(code, row, now, AUTH_CODE_TTL_MINUTES);
    if stored.Err? { return Err(stored.error); }
    return Ok(code);
  }

  // ── A handler is a run ────────────────────────────────────────────────────

  /** The statements that end both chain-extending grants. */
  function Tail(h: nat, next: string): seq<Event> { [At(h, Mint), At(h, StoreRefresh(next))] + [At(h, Audit)] }

  lemma RunTail(env: Env, s: State, h: nat, next: string)
    ensures Run(env, s, Tail(h, next)) == Step(env, Step(env, Step(env, s, At(h, Mint)), At(h, StoreRefresh(next))), At(h, Audit))
  {
    hide Step;
    RunAppend(env, s, [At(h, Mint), At(h, StoreRefresh(next))], At(h, Audit));
    RunTwo(env, s, At(h, Mint), At(h, StoreRefresh(next)));
  }

  /** After the signature, the last two statements. */
  lemma StoreAndLog(env: Env, s: State, h: nat, next: string)
    requires Enabled(s, h, StoreRefresh(next))
    ensures var s1 := StoreRefreshStep(env, s, h, next);
            var s2 := if h in s1.handlers && s1.handlers[h].Logging? then AuditStep(s1, h) else s1;
            s2.db == Finish(env, s.db, s.handlers[h].subject, s.clock, next).0
            && s2.handlers == s.handlers - {h} && s2.clock == s.clock && s2.minted == s.minted
  {
    var s1 := StoreRefreshStep(env, s, h, next);
    assert s1.handlers - {h} == s.handlers - {h};
  }

  /** From a handler that is ready to sign, the three remaining statements are `Finish`. */
  lemma FinishIsARun(env: Env, s: State, h: nat, next: string)
    requires Tagged(s) && h in s.handlers && s.handlers[h].Ready? && !s.handlers[h].origin.FromSecret?
    requires s.handlers[h].origin.link.grant < |s.issued|
    ensures var s' := Run(env, s, Tail(h, next));
            var (t, r) := Finish(env, s.db, s.handlers[h].subject, s.clock, next);
            && s'.db == t && s'.handlers == s.handlers - {h} && s'.clock == s.clock
            && |s'.minted| == |s.minted| + 1
            && s'.minted[|s.minted|].subject == s.handlers[h].subject
            && (r.Ok? ==> r.value.subject == s.handlers[h].subject && r.value.expSeconds == s'.minted[|s.minted|].expSeconds)
  {
    RunTail(env, s, h, next);
    hide Run, StoreRefreshStep, AuditStep, CreateRefreshToken, AuditLog;
    var s1 := MintStep(s, h);
    assert Step(env, s, At(h, Mint)) == s1;
    assert Step(env, s1, At(h, StoreRefresh(next))) == StoreRefreshStep(env, s1, h, next);
    StoreAndLog(env, s1, h, next);
    assert s1.handlers - {h} == s.handlers - {h};
  }

  /** Nothing is left to do once the handler is gone. */
  lemma GoneDoesNothing(env: Env, s: State, h: nat, next: string)
    requires h !in s.handlers
    ensures Run(env, s, Tail(h, next)) == s
  {
    RunTail(env, s, h, next);
  }

  lemma RowsAreTagged(s: State)
    requires ChainInv(s)
    ensures Tagged(s)
    ensures forall c :: c in s.db.codes ==> c in s.codeTag && s.codeTag[c].grant < |s.issued|
    ensures forall t :: t in s.db.tokens ==> t in s.tokenTag && s.tokenTag[t].grant < |s.issued|
  {
    assert forall c :: c in s.db.codes ==> c in View(s).codes;
    assert forall t :: t in s.db.tokens ==> t in View(s).rows;
  }

  /** The statements before the signature: either the handler is ready to finish, or it is gone with an error. */
  ghost predicate Readied(env: Env, s: State, s2: State, h: nat, next: string, outcome: (Tables, Result<Issued>)) {
    && s2 == s.(db := s2.db, handlers := s2.handlers) && Tagged(s2) && s2.handlers - {h} == s.handlers
    && if h in s2.handlers
       then s2.handlers[h].Ready? && !s2.handlers[h].origin.FromSecret? && s2.handlers[h].origin.link.grant < |s.issued| &&
            outcome == Finish(env, s2.db, s2.handlers[h].subject, s.clock, next)
       else outcome.0 == s2.db && outcome.1.Err? && outcome.1.error != Database
  }

  /** What a whole uninterrupted grant leaves behind, given its outcome. */
  ghost predicate Outcome(s: State, s2: State, outcome: (Tables, Result<Issued>)) {
    && s2.db == outcome.0 && s2.handlers == s.handlers
    && (outcome.1.Ok? || outcome.1 == Err(Database) ==> |s2.minted| == |s.minted| + 1)
    && (outcome.1.Ok? ==>
          (s2.minted[|s.minted|].subject == outcome.1.value.subject && s2.minted[|s.minted|].expSeconds == outcome.1.value.expSeconds))
    && (outcome.1.Err? && outcome.1 != Err(Database) ==> s2.minted == s.minted)
  }

  lemma ReadiedFinishes(env: Env, s: State, s2: State, h: nat, next: string, outcome: (Tables, Result<Issued>))
    requires Readied(env, s, s2, h, next, outcome) && h !in s.handlers
    ensures Outcome(s, Run(env, s2, Tail(h, next)), outcome)
  {
    hide Run, Tagged;
    if h in s2.handlers {
      FinishIsARun(env, s2, h, next);
    } else {
      GoneDoesNothing(env, s2, h, next);
    }
  }

  lemma ExchangeReadies(env: Env, s: State, h: nat, form: ExchangeForm, next: string)
    requires h !in s.handlers && Tagged(s) && forall c :: c in s.db.codes ==> c in s.codeTag && s.codeTag[c].grant < |s.issued|
    ensures var s1 := ExchangeStep(s, h, form);
            Readied(env, s, if s1 == s then s else CheckExchangeStep(env, s1, h), h, next, AuthCodeGrant(env, s.db, form, s.clock, next))
  {
    hide Finish;
    var s1 := ExchangeStep(s, h, form);
    if s1 == s {
      assert s.handlers - {h} == s.handlers;
    } else {
      assert s1.handlers - {h} == s.handlers;
      var s2 := CheckExchangeStep(env, s1, h);
      assert s2.handlers - {h} == s.handlers;
    }
  }

  /**
   * `auth_code_grant` without interruption is the run of its five statements:
   * same tables, and a signature exactly when every check passed.
   */
  lemma ExchangeIsARun(env: Env, s: State, h: nat, form: ExchangeForm, next: string)
    requires ChainInv(s) && h !in s.handlers
    ensures Outcome(s, Run(env, s, [At(h, Exchange(form)), At(h, CheckExchange)] + Tail(h, next)),
                    AuthCodeGrant(env, s.db, form, s.clock, next))
  {
    hide Run, ChainInv, Tagged, Outcome, Readied, AuthCodeGrant;
    var es := [At(h, Exchange(form)), At(h, CheckExchange)];
    RunConcat(env, s, es, Tail(h, next));
    RunTwo(env, s, es[0], es[1]);
    RowsAreTagged(s);
    ExchangeReadies(env, s, h, form, next);
    ReadiedFinishes(env, s, Run(env, s, es), h, next, AuthCodeGrant(env, s.db, form, s.clock, next));
  }

  /** The gate and the user lookup, after the token has been rotated. */
  lemma GateReadies(env: Env, s: State, s1: State, h: nat, next: string, outcome: (Tables, Result<Issued>))
    requires h !in s.handlers && Tagged(s1) && s1 == s.(db := s1.db, handlers := s1.handlers) && s1.handlers - {h} == s.handlers
    requires h in s1.handlers && s1.handlers[h].TokenTaken? && s1.handlers[h].next.grant < |s.issued|
    requires var x := s1.handlers[h];
             outcome == if x.rotated.clientId != x.clientId then (s1.db, Err(InvalidToken))
                        else if !Gate(env, s.entitled, x.rotated.userId, x.rotated.resource) then (s1.db, Err(AccessDenied))
                        else if x.rotated.userId !in s1.db.users then (s1.db, Err(NotFound))
                        else Finish(env, s1.db, Subject(x.clientId, x.rotated.userId, x.rotated.scope, x.rotated.resource), s.clock, next)
    ensures var s2 := RefreshGateStep(env, s1, h);
            Readied(env, s, if h in s2.handlers then LoadUserStep(s2, h) else s2, h, next, outcome)
  {
    hide Finish, Gate, GateOpen;
    var x := s1.handlers[h];
    assert Gate(env, s.entitled, x.rotated.userId, x.rotated.resource) == GateOpen(env, s1, x.rotated.userId, x.rotated.resource)
    by { SameGate(env, s1, x.rotated.userId, x.rotated.resource); }
    var s2 := RefreshGateStep(env, s1, h);
    assert s2.handlers - {h} == s.handlers;
    if h in s2.handlers { assert LoadUserStep(s2, h).handlers - {h} == s.handlers; }
  }

  lemma SameGate(env: Env, s: State, user: UserId, resource: string)
    ensures Gate(env, s.entitled, user, resource) == GateOpen(env, s, user, resource)
  {
  }

  lemma RefreshReadies(env: Env, s: State, h: nat, raw: string, clientId: string, next: string)
    requires h !in s.handlers && Tagged(s) && forall t :: t in s.db.tokens ==> t in s.tokenTag && s.tokenTag[t].grant < |s.issued|
    ensures var s1 := RefreshStep(env, s, h, raw, clientId);
            var s2 := if s1 == s then s else RefreshGateStep(env, s1, h);
            var s3 := if h in s2.handlers then LoadUserStep(s2, h) else s2;
            Readied(env, s, s3, h, next, RefreshTokenGrant(env, s.db, s.entitled, raw, clientId, s.clock, next))
  {
    hide Finish, Gate, RefreshGateStep, LoadUserStep;
    var s1 := RefreshStep(env, s, h, raw, clientId);
    if s1 == s {
      assert s.handlers - {h} == s.handlers;
    } else {
      assert s1.handlers - {h} == s.handlers;
      GateReadies(env, s, s1, h, next, RefreshTokenGrant(env, s.db, s.entitled, raw, clientId, s.clock, next));
    }
  }

  /** `refresh_token_grant` without interruption is the run of its six statements. */
  lemma RefreshIsARun(env: Env, s: State, h: nat, raw: string, clientId: string, next: string)
    requires ChainInv(s) && h !in s.handlers
    ensures var es := [At(h, Refresh(raw, clientId)), At(h, RefreshGate)] + [At(h, LoadUser)];
            Outcome(s, Run(env, s, es + Tail(h, next)),
                    RefreshTokenGrant(env, s.db, s.entitled, raw, clientId, s.clock, next))
  {
    hide Run, ChainInv, Tagged, Outcome, Readied, RefreshTokenGrant;
    var two := [At(h, Refresh(raw, clientId)), At(h, RefreshGate)];
    var es := two + [At(h, LoadUser)];
    RunConcat(env, s, es, Tail(h, next));
    RunAppend(env, s, two, At(h, LoadUser));
    RunTwo(env, s, two[0], two[1]);
    RowsAreTagged(s);
    RefreshReadies(env, s, h, raw, clientId, next);
    ReadiedFinishes(env, s, Run(env, s, es), h, next, RefreshTokenGrant(env, s.db, s.entitled, raw, clientId, s.clock, next));
  }

  /** Issuing a code without interruption is the run of its three statements: same tables, and a new grant exactly on success. */
  lemma IssueIsARun(env: Env, s: State, h: nat, user: UserId, p: AuthorizeParams, code: string)
    requires h !in s.handlers
    ensures var v := Run(env, s, [At(h, Authorize(user, p)), At(h, AuthorizeGate)] + [At(h, IssueCode(code))]);
            var (t, r) := IssueCodeFor(env, s.db, s.entitled, user, p, s.clock, code);
            && v.db == t && v.handlers == s.handlers && v.minted == s.minted
            && v.grants == (if r.Ok? then s.grants + [Grant(Subject(p.clientId, user, CodeScope(env, p), p.resource), p.redirectUri, p.challenge)]
                            else s.grants)
  {
    hide Run, IssueCodeFor, IssueCodeStep, AuthorizeStep, AuthorizeGateStep;
    var two := [At(h, Authorize(user, p)), At(h, AuthorizeGate)];
    RunAppend(env, s, two, At(h, IssueCode(code)));
    RunTwo(env, s, two[0], two[1]);
    IssueSteps(env, s, h, user, p, code);
  }

  lemma IssueSteps(env: Env, s: State, h: nat, user: UserId, p: AuthorizeParams, code: string)
    requires h !in s.handlers
    ensures var s1 := AuthorizeStep(env, s, h, user, p);
            (h in s1.handlers ==> s1.handlers[h].Authorizing?) &&
            var s2 := if h in s1.handlers then AuthorizeGateStep(env, s1, h) else s1;
            (h in s2.handlers ==> s2.handlers[h].Vouched?) &&
            var v := if h in s2.handlers then IssueCodeStep(s2, h, code) else s2;
            var (t, r) := IssueCodeFor(env, s.db, s.entitled, user, p, s.clock, code);
            && v.db == t && v.handlers == s.handlers && v.minted == s.minted
            && v.grants == (if r.Ok? then s.grants + [Grant(Subject(p.clientId, user, CodeScope(env, p), p.resource), p.redirectUri, p.challenge)]
                            else s.grants)
  {
    hide Gate, GateOpen, CodeScope, Allowed;
    SameGate(env, s, user, p.resource);
    var s1 := AuthorizeStep(env, s, h, user, p);
    if h in s1.handlers {
      SameGate(env, s1, user, p.resource);
      assert s1.handlers - {h} == s.handlers;
      var s2 := AuthorizeGateStep(env, s1, h);
      assert s2.handlers - {h} == s.handlers;
    }
  }

  // ── Presenting the same credential again ──────────────────────────────────

  /** Whatever the first attempt's outcome, the same code is refused from then on. */
  lemma SecondExchangeRefused(env: Env, t: Tables, form: ExchangeForm, now: nat, next: string,
                              form2: ExchangeForm, now2: nat, next2: string)
    requires form2.code == form.code && now <= now2
    ensures AuthCodeGrant(env, AuthCodeGrant(env, t, form, now, next).0, form2, now2, next2).1 == Err(InvalidToken)
  {
  }

  /** After a successful refresh the old token is refused and its successor is the one that works. */
  lemma RefreshMovesOn(env: Env, t: Tables, entitled: set<(UserId, Product)>, raw: string, clientId: string, now: nat, next: string,
                       now2: nat, next2: string)
    requires RefreshTokenGrant(env, t, entitled, raw, clientId, now, next).1.Ok? && now <= now2
    ensures var t1 := RefreshTokenGrant(env, t, entitled, raw, clientId, now, next).0;
            && RefreshTokenGrant(env, t1, entitled, raw, clientId, now2, next2).1 == Err(InvalidToken)
            && (Rotatable(t1, env.sha256Hex(next), now2) <==> now2 < now + REFRESH_TOKEN_TTL_DAYS * DAY)
  {
  }
}
