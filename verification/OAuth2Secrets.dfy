// Service clients: the client_credentials grant signs only on behalf of a
// client row that was in the table when its secret was shown.

module OAuth2Secrets {
  import opened Prelude
  import opened RedirectUri
  import opened ScopeWords
  import opened OAuth2Tables
  import opened OAuth2Protocol
  import D = OAuth2Deletions

  // ── The scope of a service token ──────────────────────────────────────────

  predicate GateScope(env: Env, resource: string, w: string) {
    var g := ResourceToProductGate(env.parse, resource);
    g.Some? && g.value.scope == w
  }

  lemma GateScopesAreWords(env: Env, resource: string)
    ensures forall w :: GateScope(env, resource, w) ==> IsWord(w)
  {
    var scopes := {"cunav:tools", "obair:tools", "dam:tools", "tack:tools", "collection:tools"};
    assert forall w :: w in scopes ==> IsWord(w);
    hide ResourceToProductGate, IsWord;
  }

  /** A service token's words are the requested ones its client's list allows, and the gate's own scope if there is a gate. */
  lemma ServiceScopeExact(env: Env, c: Client, form: SecretForm, w: string)
    ensures w in Words(SecretScope(env, c, form)) <==>
            (w in Words(form.scope) && w in c.allowedScopes) || GateScope(env, form.resource, w)
  {
    hide ResourceToProductGate, Filter, Join, Words;
    var base := Filter(Words(form.scope), c.allowedScopes);
    var g := ResourceToProductGate(env.parse, form.resource);
    WordsOfJoin(base);
    if g.Some? && g.value.scope !in base {
      assert GateScope(env, form.resource, g.value.scope);
      GateScopesAreWords(env, form.resource);
      WordsOfAppend(base, g.value.scope);
    }
  }

  // ── The client row was stored ─────────────────────────────────────────────

  predicate Listed(clients: map<string, Client>, id: string, c: Client) { id in clients && clients[id] == c }

  /** At some moment of the run the table held this row under this id. */
  ghost predicate WasListed(env: Env, es: seq<Event>, id: string, c: Client) {
    exists k :: 0 <= k <= |es| && Listed(Reach(env, es[..k]).db.clients, id, c)
  }

  function FromOrigin(o: Origin): Option<(string, Client)> {
    match o
    case FromSecret(c, request) => Some((request.clientId, c))
    case _ => None
  }

  /** The client row a request in flight is working for. */
  function Working(x: Handler): Option<(string, Client)> {
    match x
    case SecretAccepted(c, request) => Some((request.clientId, c))
    case Admitted(o, _, _) => FromOrigin(o)
    case Ready(o, _, _, _, _) => FromOrigin(o)
    case _ => None
  }

  ghost predicate HandlersSeen(handlers: map<nat, Handler>, seen: iset<(string, Client)>) {
    forall h :: h in handlers && Working(handlers[h]).Some? ==> Working(handlers[h]).value in seen
  }

  ghost predicate MintedSeen(minted: seq<AccessToken>, seen: iset<(string, Client)>) {
    forall i :: 0 <= i < |minted| && FromOrigin(minted[i].origin).Some? ==> FromOrigin(minted[i].origin).value in seen
  }

  ghost predicate ClientsSeen(clients: map<string, Client>, seen: iset<(string, Client)>) {
    forall id :: id in clients ==> (id, clients[id]) in seen
  }

  lemma StartsKeepSeen(env: Env, s: State, h: nat, seen: iset<(string, Client)>)
    requires HandlersSeen(s.handlers, seen) && ClientsSeen(s.db.clients, seen)
    ensures forall v, p :: HandlersSeen(AuthorizeStep(env, s, h, v, p).handlers, seen)
    ensures forall form :: HandlersSeen(SecretStep(env, s, h, form).handlers, seen)
    ensures forall form :: HandlersSeen(ExchangeStep(s, h, form).handlers, seen)
    ensures forall raw, c :: HandlersSeen(RefreshStep(env, s, h, raw, c).handlers, seen)
    ensures HandlersSeen(Drop(s, h).handlers, seen)
  {
  }

  lemma ChecksKeepSeen(env: Env, s: State, h: nat, seen: iset<(string, Client)>)
    requires HandlersSeen(s.handlers, seen)
    ensures Enabled(s, h, AuthorizeGate) ==> HandlersSeen(AuthorizeGateStep(env, s, h).handlers, seen)
    ensures Enabled(s, h, SecretGate) ==> HandlersSeen(SecretGateStep(env, s, h).handlers, seen)
    ensures Enabled(s, h, CheckExchange) ==> HandlersSeen(CheckExchangeStep(env, s, h).handlers, seen)
    ensures Enabled(s, h, RefreshGate) ==> HandlersSeen(RefreshGateStep(env, s, h).handlers, seen)
    ensures Enabled(s, h, LoadUser) ==> HandlersSeen(LoadUserStep(s, h).handlers, seen)
  {
    hide GateOpen, CodeScope, SecretScope, ExchangeMatches;
  }

  lemma EndsKeepSeen(env: Env, s: State, h: nat, seen: iset<(string, Client)>)
    requires HandlersSeen(s.handlers, seen) && MintedSeen(s.minted, seen)
    ensures forall code :: Enabled(s, h, IssueCode(code)) ==> HandlersSeen(IssueCodeStep(s, h, code).handlers, seen)
    ensures Enabled(s, h, Mint) ==> HandlersSeen(MintStep(s, h).handlers, seen) && MintedSeen(MintStep(s, h).minted, seen)
    ensures forall raw :: Enabled(s, h, StoreRefresh(raw)) ==> HandlersSeen(StoreRefreshStep(env, s, h, raw).handlers, seen)
  {
  }

  lemma RowsSignNothing(env: Env, s: State, x: RowEvent)
    ensures RowStep(env, s, x).handlers == s.handlers && RowStep(env, s, x).minted == s.minted
  {
  }

  lemma StepKeepsSeen(env: Env, s: State, e: Event, seen: iset<(string, Client)>)
    requires HandlersSeen(s.handlers, seen) && MintedSeen(s.minted, seen) && ClientsSeen(s.db.clients, seen)
    ensures HandlersSeen(Step(env, s, e).handlers, seen) && MintedSeen(Step(env, s, e).minted, seen)
  {
    hide HandlersSeen, MintedSeen, ClientsSeen, AuthorizeStep, SecretStep, ExchangeStep, RefreshStep, AuthorizeGateStep, SecretGateStep,
      CheckExchangeStep, RefreshGateStep, LoadUserStep, IssueCodeStep, MintStep, StoreRefreshStep, RowStep, Drop;
    match e
    case Rows(x) => RowsSignNothing(env, s, x);
    case At(h, a) =>
      StartsKeepSeen(env, s, h, seen);
      ChecksKeepSeen(env, s, h, seen);
      EndsKeepSeen(env, s, h, seen);
      if !a.Mint? { D.OthersSignNothing(env, s, h, a); }
  }

  ghost function Seen(env: Env, es: seq<Event>): iset<(string, Client)> { iset p: (string, Client) | WasListed(env, es, p.0, p.1) }

  lemma SeenNow(env: Env, es: seq<Event>)
    ensures ClientsSeen(Reach(env, es).db.clients, Seen(env, es))
  {
    hide Reach;
    forall id | id in Reach(env, es).db.clients ensures WasListed(env, es, id, Reach(env, es).db.clients[id]) {
      assert es[..|es|] == es;
      assert Listed(Reach(env, es[..|es|]).db.clients, id, Reach(env, es).db.clients[id]);
    }
  }

  lemma SeenGrows(env: Env, es: seq<Event>, e: Event)
    ensures Seen(env, es) <= Seen(env, es + [e])
  {
    hide Reach;
    forall id, c | WasListed(env, es, id, c) ensures WasListed(env, es + [e], id, c) {
      var k :| 0 <= k <= |es| && Listed(Reach(env, es[..k]).db.clients, id, c);
      assert (es + [e])[..k] == es[..k];
    }
  }

  lemma MoreSeen(s: State, a: iset<(string, Client)>, b: iset<(string, Client)>)
    requires HandlersSeen(s.handlers, a) && MintedSeen(s.minted, a) && a <= b
    ensures HandlersSeen(s.handlers, b) && MintedSeen(s.minted, b)
  {
  }

  /** Along every run, requests and signatures of service clients work for rows the table has held. */
  lemma {:induction false} ServiceRowsWereListed(env: Env, es: seq<Event>)
    ensures HandlersSeen(Reach(env, es).handlers, Seen(env, es)) && MintedSeen(Reach(env, es).minted, Seen(env, es))
    decreases |es|
  {
    hide HandlersSeen, MintedSeen, ClientsSeen, Seen, Step;
    if es == [] {
      NothingSeen(Seen(env, es));
    } else {
      var init, e := es[..|es| - 1], es[|es| - 1];
      assert es == init + [e];
      var s := Reach(env, init);
      ServiceRowsWereListed(env, init);
      SeenNow(env, init);
      StepKeepsSeen(env, s, e, Seen(env, init));
      RunAppend(env, INIT, init, e);
      SeenGrows(env, init, e);
      MoreSeen(Step(env, s, e), Seen(env, init), Seen(env, es));
    }
  }

  lemma NothingSeen(seen: iset<(string, Client)>)
    ensures HandlersSeen(INIT.handlers, seen) && MintedSeen(INIT.minted, seen)
  {
  }
}
