// The protocol refines the ledger: under every interleaving of handlers each
// event is one ledger transition, so each authorization code heads a single
// chain with at most one holder.

module OAuth2Chains {
  import opened Prelude
  import opened OAuth2Tables
  import opened OAuth2Protocol
  import opened OAuth2Ledger

  function LinkOf(o: Origin): Option<Link> {
    match o
    case FromCode(l, _) => Some(l)
    case FromRefresh(l) => Some(l)
    case FromSecret(_, _) => None
  }

  /** The chain position a handler is about to fill, if it is working on a chain. */
  function Pending(x: Handler): Option<Link> {
    match x
    case CodeTaken(tag, _, _, _) => Some(Link(tag.grant, 0))
    case TokenTaken(next, _, _) => Some(next)
    case Admitted(o, _, _) => LinkOf(o)
    case Ready(o, _, _, _, _) => LinkOf(o)
    case Signed(l, _) => Some(l)
    case _ => None
  }

  function OpenOf(codes: map<string, AuthCode>, tag: map<string, CodeTag>): map<string, nat> {
    map c | c in tag && c in codes && codes[c].usedAt.None? :: tag[c].grant
  }

  function LiveOf(tokens: map<string, RefreshToken>, tag: map<string, Link>): map<string, Link> {
    map t | t in tag && t in tokens && tokens[t].rotatedAt.None? :: tag[t]
  }

  function WorkOf(handlers: map<nat, Handler>): map<nat, Work> {
    map h | h in handlers && Pending(handlers[h]).Some? :: Work(Pending(handlers[h]).value, handlers[h].Signed?)
  }

  function LinksOf(minted: seq<AccessToken>): seq<Link> {
    if minted == [] then []
    else
      var l := LinkOf(minted[|minted| - 1].origin);
      LinksOf(minted[..|minted| - 1]) + (if l.Some? then [l.value] else [])
  }

  function View(s: State): Ledger {
    Ledger(s.issued,
           map c | c in s.codeTag :: s.codeTag[c].grant, OpenOf(s.db.codes, s.codeTag),
           s.tokenTag, LiveOf(s.db.tokens, s.tokenTag),
           WorkOf(s.handlers), LinksOf(s.minted))
  }

  /** The history variables cover exactly the rows and the grants handed out. */
  ghost predicate Tagged(s: State) {
    && |s.issued| == |s.grants|
    && s.codeTag.Keys == s.db.codes.Keys
    && s.tokenTag.Keys == s.db.tokens.Keys
  }

  // ── One ledger transition per event ───────────────────────────────────────

  lemma WorkPut(handlers: map<nat, Handler>, h: nat, x: Handler)
    requires Pending(x).Some?
    ensures WorkOf(handlers[h := x]) == WorkOf(handlers)[h := Work(Pending(x).value, x.Signed?)]
  {
  }

  lemma WorkPutIdle(handlers: map<nat, Handler>, h: nat, x: Handler)
    requires Pending(x).None?
    ensures WorkOf(handlers[h := x]) == WorkOf(handlers) - {h}
  {
  }

  lemma OpenTaken(codes: map<string, AuthCode>, tag: map<string, CodeTag>, c: string, row: AuthCode)
    requires row.usedAt.Some?
    ensures OpenOf(codes[c := row], tag) == OpenOf(codes, tag) - {c}
  {
  }

  lemma LiveStored(tokens: map<string, RefreshToken>, tag: map<string, Link>, t: string, row: RefreshToken, x: Link)
    requires row.rotatedAt.None?
    ensures LiveOf(tokens[t := row], tag[t := x]) == LiveOf(tokens, tag)[t := x]
  {
  }

  lemma DropShrinks(s: State, h: nat)
    requires Tagged(s)
    ensures Tagged(Drop(s, h)) && Shrinks(View(s), View(Drop(s, h)))
  {
  }

  /** A handler that moves on without signing keeps its place in its chain. */
  lemma PutShrinks(s: State, h: nat, x: Handler)
    requires Tagged(s) && !x.Signed?
    requires Pending(x).Some? ==> h in s.handlers && !s.handlers[h].Signed? && Pending(s.handlers[h]) == Pending(x)
    ensures Tagged(Put(s, h, x)) && Shrinks(View(s), View(Put(s, h, x)))
  {
    if Pending(x).Some? {
      WorkPut(s.handlers, h, x);
    } else {
      WorkPutIdle(s.handlers, h, x);
    }
  }

  /** What the handler-only events do: nothing, end the handler (at most with an audit row), or move it on without signing. */
  ghost predicate MovesOn(s: State, s': State, h: nat) {
    || s' == s
    || s' == Drop(s, h).(db := s.db.(audited := s'.db.audited))
    || (h in s'.handlers && s' == Put(s, h, s'.handlers[h]) && !s'.handlers[h].Signed? &&
        (Pending(s'.handlers[h]).Some? ==>
           h in s.handlers && !s.handlers[h].Signed? && Pending(s.handlers[h]) == Pending(s'.handlers[h])))
  }

  lemma MovesOnShrinks(s: State, s': State, h: nat)
    requires Tagged(s) && MovesOn(s, s', h)
    ensures Tagged(s') && Shrinks(View(s), View(s'))
  {
    if s' == s {
    } else if h !in s'.handlers {
      DropShrinks(s, h);
      assert View(s') == View(Drop(s, h));
    } else {
      PutShrinks(s, h, s'.handlers[h]);
    }
  }

  /** What the row events do: rows vanish, or un-rotated tokens become rotated; time and entitlements move freely. */
  ghost predicate RowsShrink(s: State, s': State) {
    && s'.grants == s.grants && s'.issued == s.issued && s'.minted == s.minted && s'.handlers == s.handlers
    && s'.codeTag.Keys == s'.db.codes.Keys && s'.tokenTag.Keys == s'.db.tokens.Keys
    && Submap(s'.codeTag, s.codeTag) && Submap(s'.tokenTag, s.tokenTag)
    && Submap(s'.db.codes, s.db.codes)
    && (forall t | t in s'.db.tokens ::
          t in s.db.tokens && s'.db.tokens[t] == s.db.tokens[t].(rotatedAt := s'.db.tokens[t].rotatedAt) &&
          (s'.db.tokens[t].rotatedAt.None? ==> s.db.tokens[t].rotatedAt.None?))
  }

  lemma RowsShrinkRefines(s: State, s': State)
    requires Tagged(s) && RowsShrink(s, s')
    ensures Tagged(s') && Shrinks(View(s), View(s'))
  {
  }

  lemma RowEventsShrink(env: Env, s: State, x: RowEvent)
    requires Tagged(s)
    ensures RowsShrink(s, RowStep(env, s, x))
  {
    match x
    case RemoveUser(u) => RemoveUserShrinks(s, u);
    case RemoveService(c, owner) => RemoveServiceShrinks(s, c, owner);
    case Revoke(raw) => RevokeShrinks(s, env.sha256Hex(raw));
    case _ => SameTokenRowsShrink(s, RowStep(env, s, x));
  }

  lemma SameTokenRowsShrink(s: State, s': State)
    requires Tagged(s)
    requires s' == s.(clock := s'.clock, entitled := s'.entitled, lostAt := s'.lostAt, db := s'.db)
    requires s'.db.codes == s.db.codes && s'.db.tokens == s.db.tokens
    ensures RowsShrink(s, s')
  {
  }

  lemma WithFewerRows(s: State, s1: State, db: Tables)
    requires Tagged(s) && s1 == s.(entitled := s1.entitled, lostAt := s1.lostAt)
    requires Submap(db.codes, s.db.codes) && Submap(db.tokens, s.db.tokens)
    ensures RowsShrink(s, WithRows(s1, db))
  {
  }

  lemma RemoveServiceShrinks(s: State, c: string, owner: Option<UserId>)
    requires Tagged(s)
    ensures RowsShrink(s, WithRows(s, DeleteServiceClient(s.db, c, owner).0))
  {
    WithFewerRows(s, s, DeleteServiceClient(s.db, c, owner).0);
  }

  lemma RevokeShrinks(s: State, hash: string)
    requires Tagged(s)
    ensures RowsShrink(s, s.(db := RevokeRefreshToken(s.db, hash, s.clock)))
  {
  }

  lemma DeleteUserShrinks(t: Tables, u: UserId)
    ensures Submap(DeleteUser(t, u).codes, t.codes) && Submap(DeleteUser(t, u).tokens, t.tokens)
  {
  }

  lemma RemoveUserShrinks(s: State, u: UserId)
    requires Tagged(s)
    ensures RowsShrink(s, RemoveUserStep(s, u))
  {
    DeleteUserShrinks(s.db, u);
    WithFewerRows(s, SetEntitled(s, set q | q in s.entitled && q.0 != u), DeleteUser(s.db, u));
  }

  lemma IssueCodeRefines(s: State, h: nat, code: string)
    requires Tagged(s) && Enabled(s, h, IssueCode(code))
    ensures var s' := IssueCodeStep(s, h, code);
            Tagged(s') && (Shrinks(View(s), View(s')) || Opens(View(s), View(s'), code))
  {
    var s' := IssueCodeStep(s, h, code);
    if s'.grants == s.grants {
      DropShrinks(s, h);
    } else {
      var row, tag := s'.db.codes[code], s'.codeTag[code];
      IssuedOpens(s, s', code, row, tag);
    }
  }

  lemma IssuedOpens(s: State, s': State, code: string, row: AuthCode, tag: CodeTag)
    requires Tagged(s) && code !in s.codeTag && row.usedAt.None? && tag.grant == |s.issued|
    requires s'.codeTag == s.codeTag[code := tag] && s'.db.codes == s.db.codes[code := row]
    requires s'.issued == s.issued + [0] && |s'.grants| == |s.grants| + 1
    requires s'.tokenTag == s.tokenTag && s'.db.tokens == s.db.tokens && s'.minted == s.minted
    requires WorkOf(s'.handlers) == WorkOf(s.handlers)
    requires OpenOf(s'.db.codes, s'.codeTag) == OpenOf(s.db.codes, s.codeTag)[code := tag.grant]
    ensures Tagged(s') && Opens(View(s), View(s'), code)
  {
  }

  lemma ExchangeRefines(s: State, h: nat, form: ExchangeForm)
    requires Tagged(s)
    ensures var s' := ExchangeStep(s, h, form);
            Tagged(s') && (s' == s || Takes(View(s), View(s'), form.code, h))
  {
    var s' := ExchangeStep(s, h, form);
    if s' != s {
      WorkPut(s.handlers, h, s'.handlers[h]);
      OpenTaken(s.db.codes, s.codeTag, form.code, s'.db.codes[form.code]);
    }
  }

  lemma RefreshRefines(env: Env, s: State, h: nat, raw: string, clientId: string)
    requires Tagged(s)
    ensures var s' := RefreshStep(env, s, h, raw, clientId);
            Tagged(s') && (s' == s || Rotates(View(s), View(s'), env.sha256Hex(raw), h))
  {
    var s' := RefreshStep(env, s, h, raw, clientId);
    if s' != s {
      var t := env.sha256Hex(raw);
      WorkPut(s.handlers, h, s'.handlers[h]);
    }
  }

  lemma MintRefines(s: State, h: nat)
    requires Tagged(s) && Enabled(s, h, Mint)
    ensures var s' := MintStep(s, h);
            Tagged(s') && (Shrinks(View(s), View(s')) || Signs(View(s), View(s'), h))
  {
    var s' := MintStep(s, h);
    assert s'.minted[..|s'.minted| - 1] == s.minted;
    if s.handlers[h].origin.FromSecret? {
      WorkPutIdle(s.handlers, h, s'.handlers[h]);
      assert View(s') == View(s).(work := View(s).work - {h});
    } else {
      WorkPut(s.handlers, h, s'.handlers[h]);
    }
  }

  lemma StoreRefreshRefines(env: Env, s: State, h: nat, raw: string)
    requires Tagged(s) && Enabled(s, h, StoreRefresh(raw))
    ensures var s' := StoreRefreshStep(env, s, h, raw);
            Tagged(s') && (Shrinks(View(s), View(s')) || Stores(View(s), View(s'), h, env.sha256Hex(raw)))
  {
    var s' := StoreRefreshStep(env, s, h, raw);
    var t := env.sha256Hex(raw);
    if s' == Drop(s, h) {
      DropShrinks(s, h);
    } else {
      WorkPutIdle(s.handlers, h, s'.handlers[h]);
      LiveStored(s.db.tokens, s.tokenTag, t, s'.db.tokens[t], s'.tokenTag[t]);
    }
  }

  /** The actions that take, extend or sign a chain; all others only move or drop their handler. */
  predicate MovesChain(a: Action) {
    a.IssueCode? || a.Exchange? || a.Refresh? || a.Mint? || a.StoreRefresh?
  }

  lemma OtherActionsMoveOn(env: Env, s: State, h: nat, a: Action)
    requires !MovesChain(a)
    ensures MovesOn(s, HandlerStep(env, s, h, a), h)
  {
  }

  lemma HandlerStepRefines(env: Env, s: State, h: nat, a: Action)
    requires Tagged(s)
    ensures Tagged(HandlerStep(env, s, h, a)) && Next(View(s), View(HandlerStep(env, s, h, a)))
  {
    assert Shrinks(View(s), View(s));
    if Enabled(s, h, a) {
      match a
      case IssueCode(code) => IssueCodeRefines(s, h, code);
      case Exchange(form) => ExchangeRefines(s, h, form);
      case Refresh(raw, c) => RefreshRefines(env, s, h, raw, c);
      case Mint => MintRefines(s, h);
      case StoreRefresh(raw) => StoreRefreshRefines(env, s, h, raw);
      case _ => OtherActionsMoveOn(env, s, h, a); MovesOnShrinks(s, HandlerStep(env, s, h, a), h);
    }
  }

  /** Every event of the protocol, enabled or not, is one transition of the ledger. */
  lemma StepRefinesLedger(env: Env, s: State, e: Event)
    requires Tagged(s)
    ensures Tagged(Step(env, s, e)) && Next(View(s), View(Step(env, s, e)))
  {
    match e
    case Rows(x) => RowEventsShrink(env, s, x); RowsShrinkRefines(s, RowStep(env, s, x));
    case At(h, a) => HandlerStepRefines(env, s, h, a);
  }

  // ── Whole runs ────────────────────────────────────────────────────────────

  ghost predicate ChainInv(s: State) { Tagged(s) && Inv(View(s)) }

  lemma {:induction false} RunKeepsChain(env: Env, s: State, es: seq<Event>)
    requires ChainInv(s)
    ensures ChainInv(Run(env, s, es))
    decreases es
  {
    if es != [] {
      StepRefinesLedger(env, s, es[0]);
      NextKeepsInv(View(s), View(Step(env, s, es[0])));
      RunKeepsChain(env, Step(env, s, es[0]), es[1..]);
    }
  }
}
