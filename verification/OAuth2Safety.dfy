// The safety statements of the grant protocol, for every run from the initial
// state, any interleaving of handlers, and any hash, parser and password check.

module OAuth2Safety {
  import opened Prelude
  import opened RedirectUri
  import opened OAuth2Tables
  import opened OAuth2Protocol
  import opened OAuth2Chains
  import opened OAuth2Grants
  import opened ScopeWords
  import L = OAuth2Ledger
  import S = OAuth2Secrets
  import T = OAuth2Entitlement

  /** Everything that could still extend grant `g`: its unused code, its un-rotated tokens, its requests in flight. */
  function Holders(s: State, g: nat): set<L.Holder> {
    (set c | c in s.codeTag && c in s.db.codes && s.db.codes[c].usedAt.None? && s.codeTag[c].grant == g :: L.Code(c)) +
    (set t | t in s.tokenTag && t in s.db.tokens && s.db.tokens[t].rotatedAt.None? && s.tokenTag[t].grant == g :: L.Token(t)) +
    (set h | h in s.handlers && Pending(s.handlers[h]).Some? && Pending(s.handlers[h]).value.grant == g :: L.Request(h))
  }

  lemma HoldersAreLedgerHolders(s: State, g: nat, x: L.Holder)
    ensures x in Holders(s, g) <==> L.Holds(View(s), g, x)
  {
  }

  lemma AtMostOneInSet<T>(xs: set<T>)
    requires forall x, y :: x in xs && y in xs ==> x == y
    ensures |xs| <= 1
  {
    if xs != {} {
      var x :| x in xs;
      assert xs == {x};
    }
  }

  lemma ReachKeepsAll(env: Env, es: seq<Event>)
    ensures ChainInv(Reach(env, es)) && GrantInv(env, Reach(env, es))
  {
    RunKeepsChain(env, INIT, es);
    RunKeepsGrants(env, INIT, es);
  }

  /** Live tokens plus requests in flight plus the unused code: never more than one per grant. */
  lemma AtMostOneHolder(env: Env, es: seq<Event>, g: nat)
    ensures |Holders(Reach(env, es), g)| <= 1
  {
    var s := Reach(env, es);
    ReachKeepsAll(env, es);
    forall x, y | x in Holders(s, g) && y in Holders(s, g) ensures x == y {
      HoldersAreLedgerHolders(s, g, x);
      HoldersAreLedgerHolders(s, g, y);
    }
    AtMostOneInSet(Holders(s, g));
  }

  /**
   * The refresh tokens of one code form one chain: generations are distinct,
   * an un-rotated token is the newest of all ever stored, every other one is
   * rotated and older, and all carry the code's user, client, scope and resource.
   */
  lemma SingleChain(env: Env, es: seq<Event>, t: string, u: string)
    requires var s := Reach(env, es);
             t in s.db.tokens && u in s.db.tokens && t in s.tokenTag && u in s.tokenTag && t != u &&
             s.tokenTag[t].grant == s.tokenTag[u].grant
    ensures var s := Reach(env, es);
            && s.tokenTag[t].gen != s.tokenTag[u].gen
            && (s.db.tokens[t].rotatedAt.None? ==> s.db.tokens[u].rotatedAt.Some? && s.tokenTag[u].gen < s.tokenTag[t].gen)
            && (var a, b := s.db.tokens[t], s.db.tokens[u];
                (a.clientId, a.userId, a.scope, a.resource) == (b.clientId, b.userId, b.scope, b.resource))
  {
    var s := Reach(env, es);
    ReachKeepsAll(env, es);
    var l, g := View(s), s.tokenTag[t].grant;
    assert TokenOk(s.db.tokens[t], s.grants[g]) && TokenOk(s.db.tokens[u], s.grants[g]);
    if s.db.tokens[t].rotatedAt.None? {
      assert L.Holds(l, g, L.Token(t));
      assert s.db.tokens[u].rotatedAt.None? ==> L.Holds(l, g, L.Token(u));
    }
  }

  // ── Signatures ────────────────────────────────────────────────────────────

  /** Where the i-th signature stands among the links that were signed. */
  lemma {:induction false} LinkIndex(minted: seq<AccessToken>, i: nat) returns (k: nat)
    requires i < |minted| && LinkOf(minted[i].origin).Some?
    ensures k < |LinksOf(minted)| && LinksOf(minted)[k] == LinkOf(minted[i].origin).value
    ensures i == |minted| - 1 ==> k == |LinksOf(minted)| - 1
  {
    if i == |minted| - 1 {
      k := |LinksOf(minted)| - 1;
    } else {
      k := LinkIndex(minted[..|minted| - 1], i);
    }
  }

  lemma {:induction false} LinksInOrder(minted: seq<AccessToken>, i: nat, j: nat)
    requires L.InOrder(LinksOf(minted)) && i < j < |minted|
    requires LinkOf(minted[i].origin).Some? && LinkOf(minted[j].origin).Some?
    requires LinkOf(minted[i].origin).value.grant == LinkOf(minted[j].origin).value.grant
    ensures LinkOf(minted[i].origin).value.gen < LinkOf(minted[j].origin).value.gen
  {
    var prefix := minted[..|minted| - 1];
    if j < |minted| - 1 {
      assert L.InOrder(LinksOf(prefix)) by {
        var ls, ps := LinksOf(minted), LinksOf(prefix);
        assert forall k | 0 <= k < |ps| :: ps[k] == ls[k];
      }
      LinksInOrder(prefix, i, j);
    } else {
      var k := LinkIndex(prefix, i);
      var m := LinkIndex(minted, j);
      assert LinksOf(minted)[k] == LinksOf(prefix)[k];
    }
  }

  /** Among the signatures of one chain, later ones carry later generations. */
  lemma SignedInOrder(env: Env, es: seq<Event>, i: nat, j: nat)
    requires i < j < |Reach(env, es).minted|
    requires var a, b := LinkOf(Reach(env, es).minted[i].origin), LinkOf(Reach(env, es).minted[j].origin);
             a.Some? && b.Some? && a.value.grant == b.value.grant
    ensures LinkOf(Reach(env, es).minted[i].origin).value.gen < LinkOf(Reach(env, es).minted[j].origin).value.gen
  {
    ReachKeepsAll(env, es);
    LinksInOrder(Reach(env, es).minted, i, j);
  }

  /** No link is ever signed twice. */
  lemma OneSignaturePerLink(env: Env, es: seq<Event>, i: nat, j: nat)
    requires var s := Reach(env, es);
             i < |s.minted| && j < |s.minted| && i != j &&
             LinkOf(s.minted[i].origin).Some? && LinkOf(s.minted[j].origin).Some?
    ensures var s := Reach(env, es);
            LinkOf(s.minted[i].origin) != LinkOf(s.minted[j].origin)
  {
    var s := Reach(env, es);
    ReachKeepsAll(env, es);
    if LinkOf(s.minted[i].origin) == LinkOf(s.minted[j].origin) {
      SignedInOrder(env, es, if i < j then i else j, if i < j then j else i);
    }
  }

  /** One authorization code is signed for at most once by exchange, failed and abandoned attempts included. */
  lemma AtMostOneExchange(env: Env, es: seq<Event>, i: nat, j: nat)
    requires var s := Reach(env, es);
             i < |s.minted| && j < |s.minted| && s.minted[i].origin.FromCode? && s.minted[j].origin.FromCode? &&
             s.minted[i].origin.link.grant == s.minted[j].origin.link.grant
    ensures i == j
  {
    var s := Reach(env, es);
    ReachKeepsAll(env, es);
    assert OriginOk(env, s.minted[i].origin, s.minted[i].subject, s.grants);
    assert OriginOk(env, s.minted[j].origin, s.minted[j].subject, s.grants);
    if i != j { OneSignaturePerLink(env, es, i, j); }
  }

  /** Every signature of a chain is for the code's own client, user, scope and resource. */
  lemma SignaturesKeepSubject(env: Env, es: seq<Event>, i: nat)
    requires var s := Reach(env, es);
             i < |s.minted| && LinkOf(s.minted[i].origin).Some?
    ensures var s := Reach(env, es);
            var g := LinkOf(s.minted[i].origin).value.grant;
            g < |s.grants| && s.minted[i].subject == s.grants[g].subject
  {
    ReachKeepsAll(env, es);
    var s := Reach(env, es);
    assert OriginOk(env, s.minted[i].origin, s.minted[i].subject, s.grants);
  }

  /**
   * An exchange signs only for a caller who named the code's client, showed a
   * verifier hashing to the code's challenge, and gave a redirect URI that the
   * client's own registered list admits (up to loopback port).
   */
  lemma ExchangeProved(env: Env, es: seq<Event>, i: nat)
    requires var s := Reach(env, es);
             i < |s.minted| && s.minted[i].origin.FromCode?
    ensures var s := Reach(env, es);
            var o := s.minted[i].origin;
            && o.link.grant < |s.grants|
            && ProvedBy(env, s.grants[o.link.grant], o.form)
            && Registered(env, s.db.clients, o.form.clientId, o.form.redirectUri)
            && Registrable(env.parse, o.form.redirectUri)
  {
    var s := Reach(env, es);
    ReachKeepsAll(env, es);
    RunKeepsClients(env, INIT, es);
    var o := s.minted[i].origin;
    assert OriginOk(env, o, s.minted[i].subject, s.grants);
    var g := s.grants[o.link.grant];
    var uris := s.db.clients[g.subject.clientId].redirectUris;
    AllowedThroughStored(env.parse, uris, g.redirectUri, o.form.redirectUri);
    AllowedIsRegistrable(env.parse, uris, o.form.redirectUri);
  }

  /**
   * A client-credentials token is signed for the service user of a client whose
   * row the table has held and whose stored hash verified the secret shown; its scope string consists of exactly the requested words that
   * client's list allows, and of the gate's own scope whenever the resource is gated.
   */
  lemma ServiceScopesBounded(env: Env, es: seq<Event>, i: nat)
    requires i < |Reach(env, es).minted| && Reach(env, es).minted[i].origin.FromSecret?
    ensures var m := Reach(env, es).minted[i];
            var c, request := m.origin.client, m.origin.request;
            && S.WasListed(env, es, request.clientId, c)
            && IsServiceClient(c) && env.verifySecret(request.secret, c.secretHash.value)
            && m.subject.clientId == request.clientId && m.subject.userId == c.serviceUser.value && m.subject.resource == request.resource
            && (forall w :: w in Words(m.subject.scope) <==>
                  (w in Words(request.scope) && w in c.allowedScopes) || S.GateScope(env, request.resource, w))
  {
    hide Reach, Words, SecretScope;
    ReachKeepsAll(env, es);
    S.ServiceRowsWereListed(env, es);
    var m := Reach(env, es).minted[i];
    var c, request := m.origin.client, m.origin.request;
    assert OriginOk(env, m.origin, m.subject, Reach(env, es).grants);
    assert S.FromOrigin(m.origin) == Some((request.clientId, c));
    forall w ensures w in Words(SecretScope(env, c, request)) <==>
                     (w in Words(request.scope) && w in c.allowedScopes) || S.GateScope(env, request.resource, w) {
      S.ServiceScopeExact(env, c, request, w);
    }
  }

  // ── Revocation ────────────────────────────────────────────────────────────

  /**
   * Section 2.1 of RFC 7009: revoking a known refresh token ends its chain
   * exactly when that token was the un-rotated one, or the chain had already ended.
   */
  lemma RevokeEndsChainIff(env: Env, s: State, raw: string)
    requires ChainInv(s) && env.sha256Hex(raw) in s.tokenTag
    ensures var t := env.sha256Hex(raw);
            var g := s.tokenTag[t].grant;
            Holders(RowStep(env, s, Revoke(raw)), g) == {} <==> (s.db.tokens[t].rotatedAt.None? || Holders(s, g) == {})
  {
    hide Holders, L.Holds, L.OneHolder, L.Shrinks, L.Dead;
    var t := env.sha256Hex(raw);
    var s' := RowStep(env, s, Revoke(raw));
    if s.db.tokens[t].rotatedAt.None? {
      RevokedIsDead(env, s, raw);
      DeadIffNoHolders(s', s.tokenTag[t].grant);
    } else {
      assert s' == s;
    }
  }

  lemma DeadIffNoHolders(s: State, g: nat)
    ensures L.Dead(View(s), g) <==> Holders(s, g) == {}
  {
    hide Holders, L.Holds, View;
    forall x ensures x in Holders(s, g) <==> L.Holds(View(s), g, x) { HoldersAreLedgerHolders(s, g, x); }
  }

  /** Revoking the un-rotated token is a shrinking step of the ledger that removes that token from the live ones. */
  lemma RevokedIsDead(env: Env, s: State, raw: string)
    requires ChainInv(s) && env.sha256Hex(raw) in s.tokenTag && s.db.tokens[env.sha256Hex(raw)].rotatedAt.None?
    ensures var s' := RowStep(env, s, Revoke(raw));
            Tagged(s') && L.Shrinks(View(s), View(s')) && L.Dead(View(s'), s.tokenTag[env.sha256Hex(raw)].grant)
  {
    hide L.Holds, L.OneHolder, L.Shrinks, L.Dead, RowsShrink;
    var t := env.sha256Hex(raw);
    var s' := RowStep(env, s, Revoke(raw));
    RevokeShrinks(s, t);
    RowsShrinkRefines(s, s');
    assert t in View(s).live && View(s).live[t].grant == s.tokenTag[t].grant;
    assert t !in View(s').live;
    L.LosingLiveKills(View(s), View(s'), t);
  }

  /** `b` continues `a` without another signature for grant `g`. */
  ghost predicate SilentFor(a: seq<AccessToken>, b: seq<AccessToken>, g: nat) {
    && a <= b
    && (forall i | |a| <= i < |b| :: LinkOf(b[i].origin).Some? ==> LinkOf(b[i].origin).value.grant != g)
  }

  lemma SilentTransitive(a: seq<AccessToken>, b: seq<AccessToken>, c: seq<AccessToken>, g: nat)
    requires SilentFor(a, b, g) && SilentFor(b, c, g)
    ensures SilentFor(a, c, g)
  {
    forall i | |a| <= i < |c| && LinkOf(c[i].origin).Some? ensures LinkOf(c[i].origin).value.grant != g {
      assert i < |b| ==> c[i] == b[i];
    }
  }

  lemma OnlyMintSigns(env: Env, s: State, e: Event)
    requires Tagged(s) && !(e.At? && e.a.Mint? && Enabled(s, e.h, Mint))
    ensures Step(env, s, e).minted == s.minted
  {
    match e
    case Rows(x) => RowEventsShrink(env, s, x);
    case At(h, a) =>
      if !MovesChain(a) { OtherActionsMoveOn(env, s, h, a); }
  }

  lemma DeadStepSilent(env: Env, s: State, e: Event, g: nat)
    requires Tagged(s) && L.Dead(View(s), g)
    ensures SilentFor(s.minted, Step(env, s, e).minted, g)
  {
    if e.At? && e.a.Mint? && Enabled(s, e.h, Mint) {
      var o := s.handlers[e.h].origin;
      if LinkOf(o).Some? {
        assert L.Holds(View(s), LinkOf(o).value.grant, L.Request(e.h));
      }
    } else {
      OnlyMintSigns(env, s, e);
    }
  }

  ghost predicate Ended(s: State, g: nat) { ChainInv(s) && g < |s.issued| && L.Dead(View(s), g) }

  lemma EndedStep(env: Env, s: State, e: Event, g: nat)
    requires Ended(s, g)
    ensures Ended(Step(env, s, e), g)
  {
    StepRefinesLedger(env, s, e);
    L.NextKeepsInv(View(s), View(Step(env, s, e)));
    L.DeadStaysDead(View(s), View(Step(env, s, e)), g);
  }

  /** A chain without a holder stays without one and is never signed for again. */
  lemma {:induction false} EndedRun(env: Env, s: State, es: seq<Event>, g: nat)
    requires Ended(s, g)
    ensures Ended(Run(env, s, es), g) && SilentFor(s.minted, Run(env, s, es).minted, g)
    decreases es
  {
    if es != [] {
      var s1 := Step(env, s, es[0]);
      EndedStep(env, s, es[0], g);
      DeadStepSilent(env, s, es[0], g);
      EndedRun(env, s1, es[1..], g);
      SilentTransitive(s.minted, s1.minted, Run(env, s1, es[1..]).minted, g);
    }
  }

  /**
   * After the un-rotated token of a chain is revoked, no run, however it
   * continues, signs another token of that chain, and every token of the chain
   * signed so far expires within 3600 s of the revocation.
   */
  lemma RevocationIsFinal(env: Env, before: seq<Event>, raw: string, after: seq<Event>, i: nat)
    requires var s := Reach(env, before);
             var t := env.sha256Hex(raw);
             t in s.tokenTag && t in s.db.tokens && s.db.tokens[t].rotatedAt.None?
    requires var s := Reach(env, before);
             var r := Run(env, RowStep(env, s, Revoke(raw)), after);
             i < |r.minted| && LinkOf(r.minted[i].origin).Some? &&
             LinkOf(r.minted[i].origin).value.grant == s.tokenTag[env.sha256Hex(raw)].grant
    ensures var s := Reach(env, before);
            var r := Run(env, RowStep(env, s, Revoke(raw)), after);
            && i < |s.minted| && r.minted[i] == s.minted[i]
            && r.minted[i].expSeconds * SECOND <= s.clock + ACCESS_TOKEN_TTL_SECONDS * SECOND
  {
    var s := Reach(env, before);
    hide ChainInv, GrantInv, Ended, Run;
    var s1 := RowStep(env, s, Revoke(raw));
    var g := s.tokenTag[env.sha256Hex(raw)].grant;
    ReachKeepsAll(env, before);
    RevokedEnded(env, s, raw);
    EndedRun(env, s1, after, g);
    assert s1.minted == s.minted;
    SignedByNow(env, before, i);
  }

  lemma SignedByNow(env: Env, es: seq<Event>, i: nat)
    requires i < |Reach(env, es).minted|
    ensures Reach(env, es).minted[i].expSeconds * SECOND <= Reach(env, es).clock + ACCESS_TOKEN_TTL_SECONDS * SECOND
  {
    T.RunKeepsTime(env, INIT, es);
    assert T.MintedTime(env, T.AccessOf(Reach(env, es)), Reach(env, es).minted[i]);
  }

  lemma RevokedEnded(env: Env, s: State, raw: string)
    requires ChainInv(s) && env.sha256Hex(raw) in s.tokenTag && s.db.tokens[env.sha256Hex(raw)].rotatedAt.None?
    ensures Ended(RowStep(env, s, Revoke(raw)), s.tokenTag[env.sha256Hex(raw)].grant)
  {
    hide L.Holds, L.OneHolder, L.Shrinks, L.Dead, L.Counted, L.SignedBelow;
    var s' := RowStep(env, s, Revoke(raw));
    RevokedIsDead(env, s, raw);
    L.ShrinksKeepsInv(View(s), View(s'));
  }
}
