// Deleting a user or a service client: nothing is signed for them any more,
// whatever else is in flight.

module OAuth2Deletions {
  import opened Prelude
  import opened OAuth2Tables
  import opened OAuth2Protocol
  import C = OAuth2Chains

  // ── Users ─────────────────────────────────────────────────────────────────

  /** No request for the user has already passed its user lookup. */
  predicate NoneReady(handlers: map<nat, Handler>, u: UserId) {
    forall h :: h in handlers && handlers[h].Ready? ==> handlers[h].subject.userId != u
  }

  /** No row of the tables belongs to the user. */
  predicate NoRows(t: Tables, u: UserId) {
    && u !in t.users
    && (forall c :: c in t.codes ==> t.codes[c].userId != u)
    && (forall h :: h in t.tokens ==> t.tokens[h].userId != u)
    && (forall c :: c in t.clients ==> t.clients[c].serviceUser != Some(u))
  }

  predicate Gone(s: State, u: UserId) { NoRows(s.db, u) && NoneReady(s.handlers, u) }

  /** Only signatures for other users were added. */
  ghost predicate SignedForOthers(a: seq<AccessToken>, b: seq<AccessToken>, u: UserId) {
    a <= b && forall i :: |a| <= i < |b| ==> b[i].subject.userId != u
  }

  lemma RowsKeepGone(env: Env, s: State, x: RowEvent, u: UserId)
    requires Gone(s, u) && x != AddUser(u)
    ensures Gone(RowStep(env, s, x), u) && RowStep(env, s, x).minted == s.minted
  {
  }

  /** Handlers never touch users, and become ready only for users that exist. */
  lemma StartsKeepGone(env: Env, s: State, h: nat, u: UserId)
    requires Gone(s, u)
    ensures forall v, p :: Gone(AuthorizeStep(env, s, h, v, p), u)
    ensures forall form :: Gone(SecretStep(env, s, h, form), u)
    ensures forall form :: Gone(ExchangeStep(s, h, form), u)
    ensures forall raw, c :: Gone(RefreshStep(env, s, h, raw, c), u)
    ensures Gone(Drop(s, h), u)
  {
  }

  lemma ChecksKeepGone(env: Env, s: State, h: nat, u: UserId)
    requires Gone(s, u)
    ensures Enabled(s, h, AuthorizeGate) ==> Gone(AuthorizeGateStep(env, s, h), u)
    ensures Enabled(s, h, SecretGate) ==> Gone(SecretGateStep(env, s, h), u)
    ensures Enabled(s, h, CheckExchange) ==> Gone(CheckExchangeStep(env, s, h), u)
    ensures Enabled(s, h, RefreshGate) ==> Gone(RefreshGateStep(env, s, h), u)
    ensures Enabled(s, h, LoadUser) ==> Gone(LoadUserStep(s, h), u)
  {
    assert u !in s.db.users;
    hide NoRows, GateOpen, CodeScope, SecretScope, ExchangeMatches;
  }

  lemma EndsKeepGone(env: Env, s: State, h: nat, u: UserId)
    requires Gone(s, u)
    ensures forall code :: Enabled(s, h, IssueCode(code)) ==> Gone(IssueCodeStep(s, h, code), u)
    ensures Enabled(s, h, Mint) ==> Gone(MintStep(s, h), u) && SignedForOthers(s.minted, MintStep(s, h).minted, u)
    ensures forall raw :: Enabled(s, h, StoreRefresh(raw)) ==> Gone(StoreRefreshStep(env, s, h, raw), u)
    ensures Enabled(s, h, Audit) ==> Gone(AuditStep(s, h), u)
  {
  }

  /** Only `Mint` changes what has been signed. */
  lemma OthersSignNothing(env: Env, s: State, h: nat, a: Action)
    requires !a.Mint?
    ensures HandlerStep(env, s, h, a).minted == s.minted
  {
    if !C.MovesChain(a) {
      C.OtherActionsMoveOn(env, s, h, a);
      hide HandlerStep;
    }
  }

  lemma StepKeepsGone(env: Env, s: State, e: Event, u: UserId)
    requires Gone(s, u) && e != Rows(AddUser(u))
    ensures Gone(Step(env, s, e), u) && SignedForOthers(s.minted, Step(env, s, e).minted, u)
  {
    hide Gone, AuthorizeStep, SecretStep, ExchangeStep, RefreshStep, AuthorizeGateStep, SecretGateStep, CheckExchangeStep,
      RefreshGateStep, LoadUserStep, IssueCodeStep, MintStep, StoreRefreshStep, AuditStep, RowStep, Drop;
    match e
    case Rows(x) => RowsKeepGone(env, s, x, u);
    case At(h, a) =>
      StartsKeepGone(env, s, h, u);
      ChecksKeepGone(env, s, h, u);
      EndsKeepGone(env, s, h, u);
      if !a.Mint? { OthersSignNothing(env, s, h, a); }
  }

  lemma {:induction false} GoneRun(env: Env, s: State, es: seq<Event>, u: UserId)
    requires Gone(s, u) && Rows(AddUser(u)) !in es
    ensures Gone(Run(env, s, es), u) && SignedForOthers(s.minted, Run(env, s, es).minted, u)
    decreases |es|
  {
    hide Step, Gone;
    if es != [] {
      var s1 := Step(env, s, es[0]);
      StepKeepsGone(env, s, es[0], u);
      GoneRun(env, s1, es[1..], u);
      forall i | |s.minted| <= i < |Run(env, s1, es[1..]).minted|
        ensures Run(env, s1, es[1..]).minted[i].subject.userId != u
      {
        assert i < |s1.minted| ==> Run(env, s1, es[1..]).minted[i] == s1.minted[i];
      }
    }
  }

  /**
   * Once a user is deleted with no request of theirs between its user lookup and
   * its signature, no continuation that does not create them anew signs for them
   * again — not by exchange, refresh or client credentials — and at no point of it
   * is there a code, a refresh token or a service client of theirs.  Only users
   * without an audit row can be deleted at all (`OAuth2Audit`): those with codes
   * never exchanged, or whose tokens' audit rows could not be written.
   */
  lemma DeletedUserGetsNothing(env: Env, s: State, u: UserId, es: seq<Event>)
    requires u !in s.db.audited && NoneReady(s.handlers, u) && Rows(AddUser(u)) !in es
    ensures var d := RowStep(env, s, RemoveUser(u));
            SignedForOthers(d.minted, Run(env, d, es).minted, u) && NoRows(Run(env, d, es).db, u)
  {
    hide Run;
    GoneRun(env, RowStep(env, s, RemoveUser(u)), es, u);
  }

  // ── Service clients ───────────────────────────────────────────────────────

  /** Who a request with a client secret is for. */
  predicate ServesClient(x: Handler, c: string) {
    match x
    case SecretAccepted(_, request) => request.clientId == c
    case Admitted(o, subject, _) => o.FromSecret? && subject.clientId == c
    case Ready(o, subject, _, _, _) => o.FromSecret? && subject.clientId == c
    case _ => false
  }

  /** The client is not a service client, and no request has already shown its secret. */
  predicate Withdrawn(s: State, c: string) {
    && (c in s.db.clients ==> !IsServiceClient(s.db.clients[c]))
    && (forall h :: h in s.handlers ==> !ServesClient(s.handlers[h], c))
  }

  ghost predicate NoSecretFor(a: seq<AccessToken>, b: seq<AccessToken>, c: string) {
    a <= b && forall i :: |a| <= i < |b| ==> !(b[i].origin.FromSecret? && b[i].subject.clientId == c)
  }

  /** Re-provisioning the client is the one event excluded. */
  predicate Provisions(e: Event, c: string) { e.Rows? && e.x.AddService? && e.x.clientId == c }

  lemma RowsKeepWithdrawn(env: Env, s: State, x: RowEvent, c: string)
    requires Withdrawn(s, c) && !Provisions(Rows(x), c)
    ensures Withdrawn(RowStep(env, s, x), c) && RowStep(env, s, x).minted == s.minted
  {
  }

  lemma StartsKeepWithdrawn(env: Env, s: State, h: nat, c: string)
    requires Withdrawn(s, c)
    ensures forall v, p :: Withdrawn(AuthorizeStep(env, s, h, v, p), c)
    ensures forall form :: Withdrawn(SecretStep(env, s, h, form), c)
    ensures forall form :: Withdrawn(ExchangeStep(s, h, form), c)
    ensures forall raw, k :: Withdrawn(RefreshStep(env, s, h, raw, k), c)
    ensures Withdrawn(Drop(s, h), c)
  {
  }

  lemma ChecksKeepWithdrawn(env: Env, s: State, h: nat, c: string)
    requires Withdrawn(s, c)
    ensures Enabled(s, h, AuthorizeGate) ==> Withdrawn(AuthorizeGateStep(env, s, h), c)
    ensures Enabled(s, h, SecretGate) ==> Withdrawn(SecretGateStep(env, s, h), c)
    ensures Enabled(s, h, CheckExchange) ==> Withdrawn(CheckExchangeStep(env, s, h), c)
    ensures Enabled(s, h, RefreshGate) ==> Withdrawn(RefreshGateStep(env, s, h), c)
    ensures Enabled(s, h, LoadUser) ==> Withdrawn(LoadUserStep(s, h), c)
  {
    hide GateOpen, CodeScope, SecretScope, ExchangeMatches;
    if h in s.handlers { assert !ServesClient(s.handlers[h], c); }
  }

  lemma EndsKeepWithdrawn(env: Env, s: State, h: nat, c: string)
    requires Withdrawn(s, c)
    ensures forall code :: Enabled(s, h, IssueCode(code)) ==> Withdrawn(IssueCodeStep(s, h, code), c)
    ensures Enabled(s, h, Mint) ==> Withdrawn(MintStep(s, h), c) && NoSecretFor(s.minted, MintStep(s, h).minted, c)
    ensures forall raw :: Enabled(s, h, StoreRefresh(raw)) ==> Withdrawn(StoreRefreshStep(env, s, h, raw), c)
    ensures Enabled(s, h, Audit) ==> Withdrawn(AuditStep(s, h), c)
  {
    hide IsServiceClient, ClaimSeconds;
    if h in s.handlers { assert !ServesClient(s.handlers[h], c); }
  }

  lemma StepKeepsWithdrawn(env: Env, s: State, e: Event, c: string)
    requires Withdrawn(s, c) && !Provisions(e, c)
    ensures Withdrawn(Step(env, s, e), c) && NoSecretFor(s.minted, Step(env, s, e).minted, c)
  {
    hide Withdrawn, AuthorizeStep, SecretStep, ExchangeStep, RefreshStep, AuthorizeGateStep, SecretGateStep, CheckExchangeStep,
      RefreshGateStep, LoadUserStep, IssueCodeStep, MintStep, StoreRefreshStep, AuditStep, RowStep, Drop;
    match e
    case Rows(x) => RowsKeepWithdrawn(env, s, x, c);
    case At(h, a) =>
      StartsKeepWithdrawn(env, s, h, c);
      ChecksKeepWithdrawn(env, s, h, c);
      EndsKeepWithdrawn(env, s, h, c);
      if !a.Mint? { OthersSignNothing(env, s, h, a); }
  }

  /** After a service client is withdrawn, its secret yields nothing more until it is provisioned again. */
  lemma {:induction false} WithdrawnClientGetsNothing(env: Env, s: State, es: seq<Event>, c: string)
    requires Withdrawn(s, c) && forall e :: e in es ==> !Provisions(e, c)
    ensures Withdrawn(Run(env, s, es), c) && NoSecretFor(s.minted, Run(env, s, es).minted, c)
    decreases |es|
  {
    hide Step, Withdrawn, Provisions;
    if es != [] {
      var s1 := Step(env, s, es[0]);
      StepKeepsWithdrawn(env, s, es[0], c);
      WithdrawnClientGetsNothing(env, s1, es[1..], c);
      forall i | |s.minted| <= i < |Run(env, s1, es[1..]).minted|
        ensures !(Run(env, s1, es[1..]).minted[i].origin.FromSecret? && Run(env, s1, es[1..]).minted[i].subject.clientId == c)
      {
        assert i < |s1.minted| ==> Run(env, s1, es[1..]).minted[i] == s1.minted[i];
      }
    }
  }

  /**
   * Deleting a service client, by an administrator or by the user it belongs to,
   * ends it: with no request of it in flight, its secret yields nothing more until
   * it is provisioned again, and none of its codes or refresh tokens is left.
   */
  lemma DeletedClientGetsNothing(env: Env, s: State, c: string, owner: Option<UserId>, es: seq<Event>)
    requires DeleteServiceClient(s.db, c, owner).1.Ok? && forall h :: h in s.handlers ==> !ServesClient(s.handlers[h], c)
    requires forall e :: e in es ==> !Provisions(e, c)
    ensures var d := RowStep(env, s, RemoveService(c, owner));
            && NoSecretFor(d.minted, Run(env, d, es).minted, c)
            && (forall k :: k in d.db.codes ==> d.db.codes[k].clientId != c)
            && (forall t :: t in d.db.tokens ==> d.db.tokens[t].clientId != c)
  {
    hide Run, Provisions, ServesClient;
    WithdrawnClientGetsNothing(env, RowStep(env, s, RemoveService(c, owner)), es, c);
  }
}
