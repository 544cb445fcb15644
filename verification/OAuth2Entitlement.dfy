// How long an access token for a gated resource can outlive the entitlement
// it was issued under.  The gate is consulted when a code is issued, when a
// refresh token is used and for client credentials, but not when a code is
// exchanged, so the code path adds the code's own lifetime.

module OAuth2Entitlement {
  import opened Prelude
  import opened RedirectUri
  import opened OAuth2Tables
  import opened OAuth2Protocol
  import opened OAuth2Chains

  /** Who is entitled to what now, and when entitlements that are gone were last held. */
  datatype Access = Access(clock: nat, entitled: set<(UserId, Product)>, lostAt: map<(UserId, Product), nat>)

  function AccessOf(s: State): Access { Access(s.clock, s.entitled, s.lostAt) }

  /** At time `v` or later, and no later than now, user `u` had product `p`. */
  predicate HadSince(a: Access, u: UserId, p: Product, v: nat) {
    v <= a.clock && ((u, p) in a.entitled || ((u, p) in a.lostAt && v <= a.lostAt[(u, p)]))
  }

  predicate VouchOk(env: Env, a: Access, u: UserId, resource: string, v: nat) {
    var g := ResourceToProductGate(env.parse, resource);
    v <= a.clock && (g.Some? ==> HadSince(a, u, g.value.product, v))
  }

  ghost predicate Advances(a: Access, b: Access) {
    a.clock <= b.clock && (forall u, p, v :: HadSince(a, u, p, v) ==> HadSince(b, u, p, v))
  }

  lemma RowEventsAdvance(env: Env, s: State, x: RowEvent)
    ensures Advances(AccessOf(s), AccessOf(RowStep(env, s, x)))
  {
  }

  // ── Deadlines ─────────────────────────────────────────────────────────────

  const CODE_LIFE: nat := AUTH_CODE_TTL_MINUTES * MINUTE

  /** How long after the gate's answer a signature may still be made, not counting time spent inside handlers. */
  function Grace(o: Origin): nat { if o.FromCode? then CODE_LIFE else 0 }

  predicate CodeTime(env: Env, a: Access, row: AuthCode, tag: CodeTag) {
    VouchOk(env, a, row.userId, row.resource, tag.vouchedAt) && row.expiresAt == tag.vouchedAt + tag.delay + CODE_LIFE
  }

  predicate HandlerTime(env: Env, a: Access, x: Handler) {
    match x
    case Vouched(u, p, _, v) => VouchOk(env, a, u, p.resource, v)
    case CodeTaken(tag, row, _, t) =>
      VouchOk(env, a, row.userId, row.resource, tag.vouchedAt) && t <= a.clock && t <= tag.vouchedAt + tag.delay + CODE_LIFE
    case Admitted(o, subject, v) =>
      VouchOk(env, a, subject.userId, subject.resource, v)
    case Ready(o, subject, v, delay, since) =>
      VouchOk(env, a, subject.userId, subject.resource, v) && since <= a.clock && since <= v + delay + Grace(o)
    case _ => true
  }

  predicate MintedTime(env: Env, a: Access, m: AccessToken) {
    && VouchOk(env, a, m.subject.userId, m.subject.resource, m.vouchedAt)
    && m.mintedAt <= a.clock
    && m.mintedAt <= m.vouchedAt + m.delay + Grace(m.origin)
    && m.expSeconds == ClaimSeconds(m.mintedAt, ACCESS_TOKEN_TTL_SECONDS)
  }

  ghost predicate CodesInTime(env: Env, a: Access, codes: map<string, AuthCode>, tag: map<string, CodeTag>) {
    forall c | c in tag && c in codes :: CodeTime(env, a, codes[c], tag[c])
  }

  ghost predicate HandlersInTime(env: Env, a: Access, handlers: map<nat, Handler>) {
    forall h | h in handlers :: HandlerTime(env, a, handlers[h])
  }

  ghost predicate MintedInTime(env: Env, a: Access, minted: seq<AccessToken>) {
    forall i | 0 <= i < |minted| :: MintedTime(env, a, minted[i])
  }

  ghost predicate TimeInv(env: Env, s: State) {
    && CodesInTime(env, AccessOf(s), s.db.codes, s.codeTag)
    && HandlersInTime(env, AccessOf(s), s.handlers)
    && MintedInTime(env, AccessOf(s), s.minted)
  }

  lemma RowsKeepTime(env: Env, s: State, s': State)
    requires TimeInv(env, s) && RowsShrink(s, s') && Advances(AccessOf(s), AccessOf(s'))
    ensures TimeInv(env, s')
  {
    forall u, r, v | VouchOk(env, AccessOf(s), u, r, v) ensures VouchOk(env, AccessOf(s'), u, r, v) { }
    CodesAdvance(env, s, s');
    HandlersAdvance(env, s, s');
    MintedAdvance(env, s, s');
  }

  lemma CodesAdvance(env: Env, s: State, s': State)
    requires CodesInTime(env, AccessOf(s), s.db.codes, s.codeTag) && RowsShrink(s, s')
    requires forall u, r, v :: VouchOk(env, AccessOf(s), u, r, v) ==> VouchOk(env, AccessOf(s'), u, r, v)
    ensures CodesInTime(env, AccessOf(s'), s'.db.codes, s'.codeTag)
  {
    forall c | c in s'.codeTag && c in s'.db.codes ensures CodeTime(env, AccessOf(s'), s'.db.codes[c], s'.codeTag[c]) {
      assert CodeTime(env, AccessOf(s), s.db.codes[c], s.codeTag[c]);
    }
  }

  lemma HandlersAdvance(env: Env, s: State, s': State)
    requires HandlersInTime(env, AccessOf(s), s.handlers) && s'.handlers == s.handlers && s.clock <= s'.clock
    requires forall u, r, v :: VouchOk(env, AccessOf(s), u, r, v) ==> VouchOk(env, AccessOf(s'), u, r, v)
    ensures HandlersInTime(env, AccessOf(s'), s'.handlers)
  {
    forall h | h in s'.handlers ensures HandlerTime(env, AccessOf(s'), s'.handlers[h]) {
      assert HandlerTime(env, AccessOf(s), s.handlers[h]);
    }
  }

  lemma MintedAdvance(env: Env, s: State, s': State)
    requires MintedInTime(env, AccessOf(s), s.minted) && s'.minted == s.minted && s.clock <= s'.clock
    requires forall u, r, v :: VouchOk(env, AccessOf(s), u, r, v) ==> VouchOk(env, AccessOf(s'), u, r, v)
    ensures MintedInTime(env, AccessOf(s'), s'.minted)
  {
    forall i | 0 <= i < |s'.minted| ensures MintedTime(env, AccessOf(s'), s'.minted[i]) {
      assert MintedTime(env, AccessOf(s), s.minted[i]);
    }
  }

  // ── Handler steps (the clock stands still) ────────────────────────────────

  lemma RefreshStepsInTime(env: Env, s: State, h: nat)
    requires TimeInv(env, s)
    ensures Enabled(s, h, RefreshGate) && h in RefreshGateStep(env, s, h).handlers ==>
              HandlerTime(env, AccessOf(s), RefreshGateStep(env, s, h).handlers[h])
    ensures Enabled(s, h, LoadUser) && h in LoadUserStep(s, h).handlers ==>
              HandlerTime(env, AccessOf(s), LoadUserStep(s, h).handlers[h])
  {
    if h in s.handlers {
      assert HandlerTime(env, AccessOf(s), s.handlers[h]);
    }
  }

  lemma CheckExchangeInTime(env: Env, s: State, h: nat)
    requires TimeInv(env, s) && Enabled(s, h, CheckExchange) && h in CheckExchangeStep(env, s, h).handlers
    ensures HandlerTime(env, AccessOf(s), CheckExchangeStep(env, s, h).handlers[h])
  {
    assert HandlerTime(env, AccessOf(s), s.handlers[h]);
  }

  lemma OtherActionKeepsTime(env: Env, s: State, h: nat, a: Action)
    requires TimeInv(env, s) && !MovesChain(a) && Enabled(s, h, a)
    ensures TimeInv(env, HandlerStep(env, s, h, a))
  {
    OtherActionsMoveOn(env, s, h, a);
    RefreshStepsInTime(env, s, h);
    if a.CheckExchange? && h in HandlerStep(env, s, h, a).handlers { CheckExchangeInTime(env, s, h); }
  }

  lemma IssueCodeInTime(env: Env, s: State, h: nat, code: string)
    requires TimeInv(env, s) && Enabled(s, h, IssueCode(code))
    ensures TimeInv(env, IssueCodeStep(s, h, code))
  {
    var s' := IssueCodeStep(s, h, code);
    assert HandlerTime(env, AccessOf(s), s.handlers[h]);
    assert AccessOf(s') == AccessOf(s);
    if s'.grants != s.grants {
      assert CodeTime(env, AccessOf(s), s'.db.codes[code], s'.codeTag[code]);
    }
  }

  lemma ExchangeInTime(env: Env, s: State, h: nat, form: ExchangeForm)
    requires TimeInv(env, s)
    ensures TimeInv(env, ExchangeStep(s, h, form))
  {
    var s' := ExchangeStep(s, h, form);
    if s' != s {
      assert CodeTime(env, AccessOf(s), s.db.codes[form.code], s.codeTag[form.code]);
      assert AccessOf(s') == AccessOf(s);
      assert HandlerTime(env, AccessOf(s), s'.handlers[h]);
    }
  }

  lemma RefreshInTime(env: Env, s: State, h: nat, raw: string, clientId: string)
    requires TimeInv(env, s)
    ensures TimeInv(env, RefreshStep(env, s, h, raw, clientId))
  {
    var s' := RefreshStep(env, s, h, raw, clientId);
    assert AccessOf(s') == AccessOf(s);
  }

  lemma MintInTime(env: Env, s: State, h: nat)
    requires TimeInv(env, s) && Enabled(s, h, Mint)
    ensures TimeInv(env, MintStep(s, h))
  {
    var s' := MintStep(s, h);
    assert HandlerTime(env, AccessOf(s), s.handlers[h]);
    assert AccessOf(s') == AccessOf(s);
    assert MintedTime(env, AccessOf(s), s'.minted[|s.minted|]);
  }

  lemma StoreInTime(env: Env, s: State, h: nat, raw: string)
    requires TimeInv(env, s) && Enabled(s, h, StoreRefresh(raw))
    ensures TimeInv(env, StoreRefreshStep(env, s, h, raw))
  {
    var s' := StoreRefreshStep(env, s, h, raw);
    assert AccessOf(s') == AccessOf(s);
  }

  lemma StepKeepsTime(env: Env, s: State, e: Event)
    requires Tagged(s) && TimeInv(env, s)
    ensures TimeInv(env, Step(env, s, e))
  {
    match e
    case Rows(x) =>
      RowEventsShrink(env, s, x);
      RowEventsAdvance(env, s, x);
      RowsKeepTime(env, s, RowStep(env, s, x));
    case At(h, a) =>
      if Enabled(s, h, a) {
        match a
        case IssueCode(code) => IssueCodeInTime(env, s, h, code);
        case Exchange(form) => ExchangeInTime(env, s, h, form);
        case Refresh(raw, c) => RefreshInTime(env, s, h, raw, c);
        case Mint => MintInTime(env, s, h);
        case StoreRefresh(raw) => StoreInTime(env, s, h, raw);
        case _ => OtherActionKeepsTime(env, s, h, a);
      }
  }

  lemma {:induction false} RunKeepsTime(env: Env, s: State, es: seq<Event>)
    requires Tagged(s) && TimeInv(env, s)
    ensures TimeInv(env, Run(env, s, es))
    decreases es
  {
    if es != [] {
      StepKeepsTime(env, s, es[0]);
      assert Tagged(Step(env, s, es[0])) by { StepRefinesLedger(env, s, es[0]); }
      RunKeepsTime(env, Step(env, s, es[0]), es[1..]);
    }
  }

  // ── The bound ─────────────────────────────────────────────────────────────

  predicate Expired(m: AccessToken, now: nat) { m.expSeconds * SECOND <= now }

  function TokenLife(o: Origin): nat { Grace(o) + ACCESS_TOKEN_TTL_SECONDS * SECOND }

  /**
   * In every reachable state, every access token ever signed for a gated
   * resource was vouched for by the gate, and once its user has lost the
   * product it is expired 3600 s later (4200 s on the code path), plus
   * whatever time its own handlers spent between gate and signature.
   */
  lemma EntitlementBound(env: Env, es: seq<Event>, i: nat)
    requires i < |Reach(env, es).minted|
    requires ResourceToProductGate(env.parse, Reach(env, es).minted[i].subject.resource).Some?
    ensures var s := Reach(env, es);
            var m := s.minted[i];
            var q := (m.subject.userId, ResourceToProductGate(env.parse, m.subject.resource).value.product);
            && (q in s.entitled || q in s.lostAt)
            && (q !in s.entitled && s.lostAt[q] + TokenLife(m.origin) + m.delay <= s.clock ==> Expired(m, s.clock))
  {
    RunKeepsTime(env, INIT, es);
    assert MintedTime(env, AccessOf(Reach(env, es)), Reach(env, es).minted[i]);
  }

  // ── Handlers that take no time ────────────────────────────────────────────

  /** The clock only moves while no handler is in flight. */
  predicate ClockWaits(env: Env, s: State, es: seq<Event>)
    decreases es
  {
    es == [] ||
    ((es[0].Rows? && es[0].x.Tick? ==> s.handlers == map[] || es[0].x.dt == 0) && ClockWaits(env, Step(env, s, es[0]), es[1..]))
  }

  predicate FreshHandler(clock: nat, x: Handler) {
    match x
    case Vouched(_, _, _, v) => v == clock
    case CodeTaken(tag, _, _, t) => tag.delay == 0 && t == clock
    case Admitted(_, _, v) => v == clock
    case Ready(_, _, _, delay, since) => delay == 0 && since == clock
    case _ => true
  }

  ghost predicate NoDelay(s: State) {
    && (forall c | c in s.codeTag :: s.codeTag[c].delay == 0)
    && (forall h | h in s.handlers :: FreshHandler(s.clock, s.handlers[h]))
    && (forall i | 0 <= i < |s.minted| :: s.minted[i].delay == 0)
  }

  lemma ChainStepsFresh(env: Env, s: State, h: nat)
    requires NoDelay(s)
    ensures Enabled(s, h, CheckExchange) && h in CheckExchangeStep(env, s, h).handlers ==>
              FreshHandler(s.clock, CheckExchangeStep(env, s, h).handlers[h])
    ensures Enabled(s, h, RefreshGate) && h in RefreshGateStep(env, s, h).handlers ==>
              FreshHandler(s.clock, RefreshGateStep(env, s, h).handlers[h])
    ensures Enabled(s, h, LoadUser) && h in LoadUserStep(s, h).handlers ==>
              FreshHandler(s.clock, LoadUserStep(s, h).handlers[h])
  {
    if h in s.handlers {
      assert FreshHandler(s.clock, s.handlers[h]);
    }
  }

  lemma OtherActionKeepsNoDelay(env: Env, s: State, h: nat, a: Action)
    requires NoDelay(s) && !MovesChain(a) && Enabled(s, h, a)
    ensures NoDelay(HandlerStep(env, s, h, a))
  {
    OtherActionsMoveOn(env, s, h, a);
    ChainStepsFresh(env, s, h);
  }

  lemma EndsKeepNoDelay(env: Env, s: State, h: nat)
    requires NoDelay(s) && h in s.handlers
    ensures forall code :: Enabled(s, h, IssueCode(code)) ==> NoDelay(IssueCodeStep(s, h, code))
    ensures Enabled(s, h, Mint) ==> NoDelay(MintStep(s, h))
    ensures forall raw :: Enabled(s, h, StoreRefresh(raw)) ==> NoDelay(StoreRefreshStep(env, s, h, raw))
  {
    assert FreshHandler(s.clock, s.handlers[h]);
  }

  lemma RowsKeepNoDelay(env: Env, s: State, x: RowEvent)
    requires Tagged(s) && NoDelay(s) && (x.Tick? ==> s.handlers == map[] || x.dt == 0)
    ensures NoDelay(RowStep(env, s, x))
  {
    RowEventsShrink(env, s, x);
    var s' := RowStep(env, s, x);
    assert s'.clock == s.clock || s.handlers == map[] by {
      assert !x.Tick? ==> s'.clock == s.clock;
    }
  }

  lemma StepKeepsNoDelay(env: Env, s: State, e: Event)
    requires Tagged(s) && NoDelay(s)
    requires e.Rows? && e.x.Tick? ==> s.handlers == map[] || e.x.dt == 0
    ensures NoDelay(Step(env, s, e))
  {
    match e
    case Rows(x) => RowsKeepNoDelay(env, s, x);
    case At(h, a) =>
      if Enabled(s, h, a) {
        if !MovesChain(a) {
          OtherActionKeepsNoDelay(env, s, h, a);
        } else if !a.Exchange? && !a.Refresh? {
          EndsKeepNoDelay(env, s, h);
        }
      }
  }

  lemma {:induction false} RunKeepsNoDelay(env: Env, s: State, es: seq<Event>)
    requires Tagged(s) && NoDelay(s) && ClockWaits(env, s, es)
    ensures NoDelay(Run(env, s, es))
    decreases es
  {
    if es != [] {
      StepKeepsNoDelay(env, s, es[0]);
      assert Tagged(Step(env, s, es[0])) by { StepRefinesLedger(env, s, es[0]); }
      RunKeepsNoDelay(env, Step(env, s, es[0]), es[1..]);
    }
  }

  /** With handlers that take no time, 4200 s after the loss no signed token for the product is unexpired. */
  lemma EntitlementBoundAtomic(env: Env, es: seq<Event>, u: UserId, p: Product, i: nat)
    requires ClockWaits(env, INIT, es)
    requires var s := Reach(env, es);
             (u, p) !in s.entitled && ((u, p) in s.lostAt ==> s.lostAt[(u, p)] + 4200 * SECOND <= s.clock)
    requires i < |Reach(env, es).minted|
    requires var m := Reach(env, es).minted[i];
             var g := ResourceToProductGate(env.parse, m.subject.resource);
             m.subject.userId == u && g.Some? && g.value.product == p
    ensures Expired(Reach(env, es).minted[i], Reach(env, es).clock)
  {
    RunKeepsNoDelay(env, INIT, es);
    EntitlementBound(env, es, i);
  }
}
