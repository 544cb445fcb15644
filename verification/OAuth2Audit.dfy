// The audit log decides who can be deleted: every grant that completes names its
// user in it, nobody else is ever named, and whoever is named stays for good.

module OAuth2Audit {
  import opened Prelude
  import opened OAuth2Tables
  import opened OAuth2Protocol
  import C = OAuth2Chains

  ghost predicate SignedFor(minted: seq<AccessToken>, u: UserId) {
    exists i :: 0 <= i < |minted| && minted[i].subject.userId == u
  }

  /** The user whose audit row a handler is still to write, its token being signed already. */
  function ToLog(x: Handler): Option<UserId> {
    match x
    case Signed(_, subject) => Some(subject.userId)
    case Logging(u) => Some(u)
    case _ => None
  }

  ghost predicate HandlersSigned(handlers: map<nat, Handler>, minted: seq<AccessToken>) {
    forall h :: h in handlers && ToLog(handlers[h]).Some? ==> SignedFor(minted, ToLog(handlers[h]).value)
  }

  /** Audit rows name existing users only, and only users for whom a token was signed. */
  ghost predicate AuditInv(s: State) {
    && s.db.audited <= s.db.users
    && (forall u :: u in s.db.audited ==> SignedFor(s.minted, u))
    && HandlersSigned(s.handlers, s.minted)
  }

  lemma RowsKeepAudit(env: Env, s: State, x: RowEvent)
    requires s.db.audited <= s.db.users
    ensures var d := RowStep(env, s, x);
            d.db.audited == s.db.audited && d.db.audited <= d.db.users && d.minted == s.minted && d.handlers == s.handlers
  {
  }

  /** Tables and signatures are left alone, and nothing more to log. */
  ghost predicate LogsNothing(s: State, d: State) {
    && d.db == s.db && d.minted == s.minted
    && forall k :: k in d.handlers && ToLog(d.handlers[k]).Some? ==> k in s.handlers && d.handlers[k] == s.handlers[k]
  }

  lemma StartsLogNothing(env: Env, s: State, h: nat)
    ensures forall v, p :: LogsNothing(s, AuthorizeStep(env, s, h, v, p))
    ensures forall form :: LogsNothing(s, SecretStep(env, s, h, form))
    ensures LogsNothing(s, Drop(s, h)) && LogsNothing(s, s)
  {
  }

  lemma ChecksLogNothing(env: Env, s: State, h: nat)
    ensures Enabled(s, h, AuthorizeGate) ==> LogsNothing(s, AuthorizeGateStep(env, s, h))
    ensures Enabled(s, h, SecretGate) ==> LogsNothing(s, SecretGateStep(env, s, h))
    ensures Enabled(s, h, CheckExchange) ==> LogsNothing(s, CheckExchangeStep(env, s, h))
    ensures Enabled(s, h, RefreshGate) ==> LogsNothing(s, RefreshGateStep(env, s, h))
    ensures Enabled(s, h, LoadUser) ==> LogsNothing(s, LoadUserStep(s, h))
  {
    hide GateOpen, CodeScope, SecretScope, ExchangeMatches;
  }

  lemma OthersLogNothing(env: Env, s: State, h: nat, a: Action)
    requires !C.MovesChain(a) && !a.Audit?
    ensures LogsNothing(s, HandlerStep(env, s, h, a))
  {
    hide LogsNothing, AuthorizeStep, SecretStep, AuthorizeGateStep, SecretGateStep, CheckExchangeStep, RefreshGateStep, LoadUserStep, Drop;
    StartsLogNothing(env, s, h);
    ChecksLogNothing(env, s, h);
  }

  lemma ChainMovesKeepAudit(env: Env, s: State, h: nat)
    requires AuditInv(s)
    ensures forall form :: AuditInv(ExchangeStep(s, h, form)) && ExchangeStep(s, h, form).db.audited == s.db.audited
    ensures forall raw, c :: AuditInv(RefreshStep(env, s, h, raw, c)) && RefreshStep(env, s, h, raw, c).db.audited == s.db.audited
    ensures forall code :: Enabled(s, h, IssueCode(code)) ==>
              AuditInv(IssueCodeStep(s, h, code)) && IssueCodeStep(s, h, code).db.audited == s.db.audited
    ensures forall raw :: Enabled(s, h, StoreRefresh(raw)) ==>
              AuditInv(StoreRefreshStep(env, s, h, raw)) && StoreRefreshStep(env, s, h, raw).db.audited == s.db.audited
  {
    hide SignedFor;
  }

  lemma MintKeepsAudit(s: State, h: nat)
    requires AuditInv(s) && Enabled(s, h, Mint)
    ensures AuditInv(MintStep(s, h)) && MintStep(s, h).db == s.db
  {
    var d := MintStep(s, h);
    forall u | SignedFor(s.minted, u) ensures SignedFor(d.minted, u) {
      var i :| 0 <= i < |s.minted| && s.minted[i].subject.userId == u;
      assert d.minted[i].subject.userId == u;
    }
    assert d.minted[|s.minted|].subject == s.handlers[h].subject;
    hide SignedFor;
  }

  lemma AuditKeepsAudit(s: State, h: nat)
    requires AuditInv(s) && Enabled(s, h, Audit)
    ensures AuditInv(AuditStep(s, h)) && s.db.audited <= AuditStep(s, h).db.audited
  {
    hide SignedFor;
    assert ToLog(s.handlers[h]).Some?;
  }

  lemma StepKeepsAudit(env: Env, s: State, e: Event)
    requires AuditInv(s)
    ensures AuditInv(Step(env, s, e)) && s.db.audited <= Step(env, s, e).db.audited
  {
    hide SignedFor, ExchangeStep, RefreshStep, IssueCodeStep, MintStep, StoreRefreshStep, AuditStep, RowStep;
    match e
    case Rows(x) => RowsKeepAudit(env, s, x);
    case At(h, a) =>
      if !C.MovesChain(a) && !a.Audit? {
        OthersLogNothing(env, s, h, a);
        hide HandlerStep;
      } else if Enabled(s, h, a) {
        ChainMovesKeepAudit(env, s, h);
        if a.Mint? { MintKeepsAudit(s, h); }
        if a.Audit? { AuditKeepsAudit(s, h); }
      }
  }

  /** Along every run the audit log only grows, and names existing users whom a token was signed for. */
  lemma {:induction false} RunKeepsAudit(env: Env, s: State, es: seq<Event>)
    requires AuditInv(s)
    ensures AuditInv(Run(env, s, es)) && s.db.audited <= Run(env, s, es).db.audited
    decreases |es|
  {
    hide AuditInv, Step;
    if es != [] {
      StepKeepsAudit(env, s, es[0]);
      RunKeepsAudit(env, Step(env, s, es[0]), es[1..]);
    }
  }
}
