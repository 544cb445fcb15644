// The two halves together: team statements decide who the product gate lets in,
// the grant protocol signs tokens and writes the audit log, and both interleave
// freely.  A user's tokens for a product outlive their last active membership in
// a team with that product by at most 4200 s, and a user for whom a grant has
// completed can never be deleted.

module GatedAccess {
  import opened Prelude
  import opened RedirectUri
  import opened ScopeWords
  import opened OAuth2Tables
  import opened OAuth2Protocol
  import A = OAuth2Audit
  import C = OAuth2Chains
  import E = OAuth2Entitlement
  import Slug
  import T = TeamTables
  import TC = TeamClaims
  import TE = TeamEffects
  import TI = TeamInvariants

  datatype World = World(db: T.Db, auth: State)

  datatype Turn = Teams(op: T.Op) | Auth(e: Event)

  /** What a team statement means for the grant tables: users come and go, and the gate's answers change. */
  ghost function TeamEvents(db: T.Db, op: T.Op): seq<Event> {
    var d := T.Apply(db, op);
    var users :=
      if op.OpAddUser? then [Rows(AddUser(op.user))]
      else if op.OpDeleteUser? && op.user in db.users && op.user !in d.users then [Rows(RemoveUser(op.user))]
      else [];
    users + [Rows(Entitle(TC.AccessPairs(d)))]
  }

  /** Users and entitlements change through team statements only. */
  predicate OwnEvent(e: Event) { e.Rows? ==> !e.x.AddUser? && !e.x.RemoveUser? && !e.x.Entitle? }

  ghost function EventsOf(w: World, t: Turn): seq<Event> {
    match t
    case Teams(op) => if op.OpAudit? then [] else TeamEvents(w.db, op)
    case Auth(e) => if OwnEvent(e) then [e] else []
  }

  /** What a turn does to the team tables; audit rows are written by grants only. */
  function OpsOf(s: State, t: Turn): seq<T.Op> {
    match t
    case Teams(op) => if op.OpAudit? then [] else [op]
    case Auth(e) => if e.At? && e.a.Audit? && Enabled(s, e.h, Audit) then [T.OpAudit(s.handlers[e.h].userId)] else []
  }

  ghost function Take(env: Env, w: World, t: Turn): World {
    World(T.Replay(w.db, OpsOf(w.auth, t)), Run(env, w.auth, EventsOf(w, t)))
  }

  ghost function Play(env: Env, w: World, ts: seq<Turn>): World
    decreases |ts|
  {
    if ts == [] then w else Play(env, Take(env, w, ts[0]), ts[1..])
  }

  ghost function Trace(env: Env, w: World, ts: seq<Turn>): seq<Event>
    decreases |ts|
  {
    if ts == [] then [] else EventsOf(w, ts[0]) + Trace(env, Take(env, w, ts[0]), ts[1..])
  }

  ghost function Statements(env: Env, w: World, ts: seq<Turn>): seq<T.Op>
    decreases |ts|
  {
    if ts == [] then [] else OpsOf(w.auth, ts[0]) + Statements(env, Take(env, w, ts[0]), ts[1..])
  }

  function Start(products: set<T.Product>): World { World(TI.Fresh(products), INIT) }

  // ── Each half is an ordinary run ───────────────────────────────────────────

  lemma {:induction false} PlayIsARun(env: Env, w: World, ts: seq<Turn>)
    ensures Play(env, w, ts).auth == Run(env, w.auth, Trace(env, w, ts))
    decreases |ts|
  {
    hide EventsOf;
    if ts != [] {
      PlayIsARun(env, Take(env, w, ts[0]), ts[1..]);
      RunConcat(env, w.auth, EventsOf(w, ts[0]), Trace(env, Take(env, w, ts[0]), ts[1..]));
    }
  }

  lemma {:induction false} ReplayConcat(db: T.Db, ops: seq<T.Op>, more: seq<T.Op>)
    ensures T.Replay(db, ops + more) == T.Replay(T.Replay(db, ops), more)
    decreases |ops|
  {
    hide T.Apply;
    if ops == [] {
      assert ops + more == more;
    } else {
      assert (ops + more)[0] == ops[0] && (ops + more)[1..] == ops[1..] + more;
      ReplayConcat(T.Apply(db, ops[0]), ops[1..], more);
    }
  }

  /** The team half is a replay of statements, so everything the statements keep holds in it. */
  lemma {:induction false} PlayIsAReplay(env: Env, w: World, ts: seq<Turn>)
    ensures Play(env, w, ts).db == T.Replay(w.db, Statements(env, w, ts))
    decreases |ts|
  {
    hide OpsOf, EventsOf;
    if ts != [] {
      PlayIsAReplay(env, Take(env, w, ts[0]), ts[1..]);
      ReplayConcat(w.db, OpsOf(w.auth, ts[0]), Statements(env, Take(env, w, ts[0]), ts[1..]));
    }
  }

  // ── Entitlement is membership ─────────────────────────────────────────────

  ghost predicate SameAccess(s: State, v: State) {
    v.clock == s.clock && v.entitled == s.entitled && v.lostAt == s.lostAt && v.db.users == s.db.users
  }

  /** No handler statement touches the clock, the users or who is entitled, and only the last one writes to the audit log. */
  lemma HandlersKeepAccess(env: Env, s: State, h: nat, a: Action)
    ensures SameAccess(s, HandlerStep(env, s, h, a))
    ensures HandlerStep(env, s, h, a).db.audited ==
            if a.Audit? && Enabled(s, h, Audit) then AuditLog(s.db, s.handlers[h].userId).audited else s.db.audited
  {
    if !C.MovesChain(a) {
      if !a.Audit? { hide HandlerStep; A.OthersLogNothing(env, s, h, a); }
      C.OtherActionsMoveOn(env, s, h, a);
    }
  }

  lemma StepKeepsEntitled(env: Env, s: State, e: Event)
    requires OwnEvent(e)
    ensures var v := Step(env, s, e);
            && v.entitled == s.entitled && v.lostAt == s.lostAt && v.db.users == s.db.users
            && v.db.audited == (if e.At? && e.a.Audit? && Enabled(s, e.h, Audit)
                                then AuditLog(s.db, s.handlers[e.h].userId).audited else s.db.audited)
  {
    if e.At? {
      hide HandlerStep;
      HandlersKeepAccess(env, s, e.h, e.a);
    } else {
      hide HandlerStep, RowStep;
      OwnRowsKeepUsers(env, s, e.x);
    }
  }

  lemma OwnRowsKeepUsers(env: Env, s: State, x: RowEvent)
    requires OwnEvent(Rows(x))
    ensures var v := RowStep(env, s, x);
            v.entitled == s.entitled && v.lostAt == s.lostAt && v.db.users == s.db.users && v.db.audited == s.db.audited
  {
    hide Filter, Registrable;
  }

  /** Which users there are after a team statement, and that it writes no audit row. */
  lemma UsersAfter(db: T.Db, op: T.Op)
    requires !op.OpAudit?
    ensures var d := T.Apply(db, op);
            && d.audited == db.audited
            && d.users == (if op.OpAddUser? then db.users + {op.user}
                           else if op.OpDeleteUser? && T.DeleteUser(db, op.user).1.Ok? then db.users - {op.user}
                           else db.users)
  {
    hide T.HasRow, T.TokenTaken, T.TokenTakenElsewhere, T.NameTaken, T.HasInvitedRow, T.RoleIn, T.ActiveRows, T.OrgExists,
      T.ForeignKeyError, T.CheckSlug, T.Unflag, T.Patched, Slug.UniqueSlug;
  }

  /** The gate's answers, the users and the audited users are the same on both sides. */
  ghost predicate Linked(w: World) {
    w.auth.entitled == TC.AccessPairs(w.db) && w.auth.db.users == w.db.users && w.auth.db.audited == w.db.audited
  }

  lemma TakeTeams(env: Env, w: World, op: T.Op)
    requires Linked(w) && !op.OpAudit?
    ensures var v := Take(env, w, Teams(op));
            Linked(v) && v.auth.clock == w.auth.clock
    ensures var v := Take(env, w, Teams(op));
            forall q :: q !in w.auth.entitled && q !in v.auth.entitled ==>
              (q in v.auth.lostAt <==> q in w.auth.lostAt) && (q in v.auth.lostAt ==> v.auth.lostAt[q] == w.auth.lostAt[q])
  {
    hide T.Apply, TC.AccessPairs;
    UsersAfter(w.db, op);
    OneStatement(w.db, op);
    var es := TeamEvents(w.db, op);
    var last := Rows(Entitle(TC.AccessPairs(T.Apply(w.db, op))));
    if |es| == 2 {
      assert es == [es[0]] + [last];
      RunConcat(env, w.auth, [es[0]], [last]);
      OneStep(env, w.auth, es[0]);
      OneStep(env, Step(env, w.auth, es[0]), last);
    } else {
      assert es == [last];
      OneStep(env, w.auth, last);
    }
  }

  lemma OneStep(env: Env, s: State, e: Event)
    ensures Run(env, s, [e]) == Step(env, s, e)
  {
    hide Step;
    assert [e][1..] == [];
  }

  lemma AuditKeepsAccess(db: T.Db, d: T.Db)
    requires d == db.(audited := d.audited)
    ensures TC.AccessPairs(d) == TC.AccessPairs(db)
  {
    hide TC.AccessPairs;
    forall q: (T.UserId, T.Product) ensures q in TC.AccessPairs(d) <==> q in TC.AccessPairs(db) {
      TC.AccessPairsAreTheGate(d, q.0, q.1);
      TC.AccessPairsAreTheGate(db, q.0, q.1);
    }
  }

  lemma OneStatement(db: T.Db, op: T.Op)
    ensures T.Replay(db, [op]) == T.Apply(db, op)
  {
    hide T.Apply;
    assert [op][1..] == [];
  }

  lemma TakeAuth(env: Env, w: World, e: Event)
    requires Linked(w)
    ensures var v := Take(env, w, Auth(e));
            && Linked(v) && v.auth.entitled == w.auth.entitled && v.auth.lostAt == w.auth.lostAt
  {
    hide Step, TC.AccessPairs;
    if OwnEvent(e) {
      OneStep(env, w.auth, e);
      StepKeepsEntitled(env, w.auth, e);
    }
    var ops := OpsOf(w.auth, Auth(e));
    if ops != [] { OneStatement(w.db, ops[0]); }
    AuditKeepsAccess(w.db, Take(env, w, Auth(e)).db);
  }

  lemma TakeKeepsLinked(env: Env, w: World, t: Turn)
    requires Linked(w)
    ensures Linked(Take(env, w, t))
  {
    hide Linked;
    match t
    case Teams(op) => if !op.OpAudit? { hide Take; TakeTeams(env, w, op); }
    case Auth(e) => hide Take; TakeAuth(env, w, e);
  }

  lemma {:induction false} PlayKeepsLinked(env: Env, w: World, ts: seq<Turn>)
    requires Linked(w)
    ensures Linked(Play(env, w, ts))
    decreases |ts|
  {
    hide Linked, Take;
    if ts != [] {
      TakeKeepsLinked(env, w, ts[0]);
      PlayKeepsLinked(env, Take(env, w, ts[0]), ts[1..]);
    }
  }

  /** Throughout the run, the user has no active membership in a team with the product. */
  ghost predicate Without(env: Env, w: World, ts: seq<Turn>, u: T.UserId, p: T.Product)
    decreases |ts|
  {
    !TC.UserHasProductAccess(w.db, u, p) && (ts == [] || Without(env, Take(env, w, ts[0]), ts[1..], u, p))
  }

  lemma WithoutIsUnentitled(w: World, u: T.UserId, p: T.Product)
    requires Linked(w) && !TC.UserHasProductAccess(w.db, u, p)
    ensures (u, p) !in w.auth.entitled
  {
    hide TC.AccessPairs, TC.UserHasProductAccess;
    TC.AccessPairsAreTheGate(w.db, u, p);
  }

  lemma TurnKeepsLosses(env: Env, w: World, t: Turn, q: (T.UserId, T.Product))
    requires Linked(w) && q !in w.auth.entitled && q !in Take(env, w, t).auth.entitled
    ensures var v := Take(env, w, t);
            (q in v.auth.lostAt <==> q in w.auth.lostAt) && (q in v.auth.lostAt ==> v.auth.lostAt[q] == w.auth.lostAt[q])
  {
    hide Linked;
    match t
    case Teams(op) => if !op.OpAudit? { hide Take; TakeTeams(env, w, op); }
    case Auth(e) => hide Take; TakeAuth(env, w, e);
  }

  lemma {:induction false} LossStays(env: Env, w: World, ts: seq<Turn>, u: T.UserId, p: T.Product)
    requires Linked(w) && Without(env, w, ts, u, p)
    ensures var v := Play(env, w, ts);
            && (u, p) !in v.auth.entitled
            && ((u, p) in v.auth.lostAt <==> (u, p) in w.auth.lostAt)
            && ((u, p) in v.auth.lostAt ==> v.auth.lostAt[(u, p)] == w.auth.lostAt[(u, p)])
    decreases |ts|
  {
    hide Take, TC.UserHasProductAccess, Linked;
    WithoutIsUnentitled(w, u, p);
    if ts != [] {
      var w1 := Take(env, w, ts[0]);
      TakeKeepsLinked(env, w, ts[0]);
      LossStays(env, w1, ts[1..], u, p);
      WithoutIsUnentitled(w1, u, p);
      TurnKeepsLosses(env, w, ts[0], (u, p));
    }
  }

  /** Losses are never recorded in the future. */
  ghost predicate LossesPast(s: State) { forall q :: q in s.lostAt ==> s.lostAt[q] <= s.clock }

  lemma StepKeepsLossesPast(env: Env, s: State, e: Event)
    requires LossesPast(s)
    ensures LossesPast(Step(env, s, e))
  {
    if OwnEvent(e) {
      hide Step;
      StepClock(env, s, e);
      StepKeepsEntitled(env, s, e);
    } else {
      hide HandlerStep, DeleteUser;
    }
  }

  lemma StepClock(env: Env, s: State, e: Event)
    ensures s.clock <= Step(env, s, e).clock
  {
    hide HandlerStep, RegisterClient, CreateServiceClient, DeleteServiceClient, RevokeRefreshToken, DeleteUser;
    if e.At? { HandlersKeepAccess(env, s, e.h, e.a); }
  }

  lemma {:induction false} RunKeepsLossesPast(env: Env, s: State, es: seq<Event>)
    requires LossesPast(s)
    ensures LossesPast(Run(env, s, es))
    decreases |es|
  {
    hide Step, LossesPast;
    if es != [] {
      StepKeepsLossesPast(env, s, es[0]);
      RunKeepsLossesPast(env, Step(env, s, es[0]), es[1..]);
    }
  }

  /** A token for the user, behind the gate of the product. */
  predicate ForProduct(env: Env, m: AccessToken, u: T.UserId, p: T.Product) {
    var g := ResourceToProductGate(env.parse, m.subject.resource);
    m.subject.userId == u && g.Some? && g.value.product == p
  }

  /**
   * Take any interleaving of team statements and grant requests.  If from some
   * moment on the user has no active membership in a team with the product, then
   * 4200 s later, plus whatever time the token's own handlers spent between gate
   * and signature, every token ever signed for them and that product has expired.
   */
  lemma TokensDieWithMembership(env: Env, products: set<T.Product>, before: seq<Turn>, after: seq<Turn>,
                                u: T.UserId, p: T.Product, i: nat)
    requires var w := Play(env, Start(products), before);
             var v := Play(env, w, after);
             && Without(env, w, after, u, p)
             && i < |v.auth.minted| && ForProduct(env, v.auth.minted[i], u, p)
             && w.auth.clock + 4200 * SECOND + v.auth.minted[i].delay <= v.auth.clock
    ensures var v := Play(env, Play(env, Start(products), before), after);
            E.Expired(v.auth.minted[i], v.auth.clock)
  {
    hide Play, Trace, Without, Run, TC.AccessPairs, ResourceToProductGate;
    var w0 := Start(products);
    var w := Play(env, w0, before);
    PlayConcat(env, w0, before, after);
    PlayIsARun(env, w0, before + after);
    PlayIsARun(env, w0, before);
    StartLinked(products);
    PlayKeepsLinked(env, w0, before);
    LossStays(env, w, after, u, p);
    RunKeepsLossesPast(env, INIT, Trace(env, w0, before));
    E.EntitlementBound(env, Trace(env, w0, before + after), i);
  }

  /** With requests inside which the clock stands still, the 4200 s are exact. */
  lemma PromptTokensDieWithMembership(env: Env, products: set<T.Product>, before: seq<Turn>, after: seq<Turn>,
                                      u: T.UserId, p: T.Product, i: nat)
    requires E.ClockWaits(env, INIT, Trace(env, Start(products), before + after))
    requires var w := Play(env, Start(products), before);
             var v := Play(env, w, after);
             && Without(env, w, after, u, p)
             && i < |v.auth.minted| && ForProduct(env, v.auth.minted[i], u, p)
             && w.auth.clock + 4200 * SECOND <= v.auth.clock
    ensures var v := Play(env, Play(env, Start(products), before), after);
            E.Expired(v.auth.minted[i], v.auth.clock)
  {
    hide Play, Trace, Without, Run, ForProduct;
    var w0 := Start(products);
    PlayConcat(env, w0, before, after);
    PlayIsARun(env, w0, before + after);
    E.RunKeepsNoDelay(env, INIT, Trace(env, w0, before + after));
    TokensDieWithMembership(env, products, before, after, u, p, i);
  }

  lemma StartLinked(products: set<T.Product>)
    ensures Linked(Start(products))
  {
  }

  lemma {:induction false} PlayConcat(env: Env, w: World, ts: seq<Turn>, us: seq<Turn>)
    ensures Play(env, w, ts + us) == Play(env, Play(env, w, ts), us)
    decreases |ts|
  {
    hide Take;
    if ts == [] {
      assert ts + us == us;
    } else {
      assert (ts + us)[0] == ts[0] && (ts + us)[1..] == ts[1..] + us;
      PlayConcat(env, Take(env, w, ts[0]), ts[1..], us);
    }
  }

  // ── When the gate stays shut ──────────────────────────────────────────────

  lemma {:induction false} WithoutIsShut(env: Env, w: World, ts: seq<Turn>, u: T.UserId, p: T.Product)
    ensures Without(env, w, ts, u, p) <==> TE.ShutThroughout(w.db, Statements(env, w, ts), u, p)
    decreases |ts|
  {
    hide EventsOf, TC.UserHasProductAccess, T.Apply;
    if ts != [] {
      var w1 := Take(env, w, ts[0]);
      WithoutIsShut(env, w1, ts[1..], u, p);
      var ops, rest := OpsOf(w.auth, ts[0]), Statements(env, w1, ts[1..]);
      if ops == [] {
        assert ops + rest == rest;
      } else {
        assert (ops + rest)[0] == ops[0] && (ops + rest)[1..] == rest;
        assert T.Replay(w.db, ops) == T.Apply(w.db, ops[0]) by { assert ops[1..] == []; }
      }
    }
  }

  /** The loss is for good exactly until a statement adds the user, accepts their invitation or enables the product where it matters. */
  lemma WithoutIff(env: Env, products: set<T.Product>, before: seq<Turn>, after: seq<Turn>, u: T.UserId, p: T.Product)
    requires !TC.UserHasProductAccess(Play(env, Start(products), before).db, u, p)
    ensures var w := Play(env, Start(products), before);
            Without(env, w, after, u, p) <==> TE.NeverOpened(w.db, Statements(env, w, after), u, p)
  {
    hide Play, Without, Statements, TC.UserHasProductAccess, TI.Inv;
    var w := Play(env, Start(products), before);
    PlayIsAReplay(env, Start(products), before);
    TI.ReachableInv(products, Statements(env, Start(products), before));
    WithoutIsShut(env, w, after, u, p);
    TE.ShutThroughoutIff(w.db, Statements(env, w, after), u, p);
  }

  // ── Who can be deleted ────────────────────────────────────────────────────

  predicate OwnsOrLeads(db: T.Db, u: T.UserId) { exists t :: t in db.teams && (db.teams[t].owner == u || db.teams[t].leader == u) }

  /**
   * After any interleaving, deleting a user succeeds exactly if they own and lead no
   * team and the grants have left no audit row for them; such a row is there only if
   * a token was signed for them.
   */
  lemma DeletableIff(env: Env, products: set<T.Product>, ts: seq<Turn>, u: T.UserId)
    requires u in Play(env, Start(products), ts).db.users
    ensures var w := Play(env, Start(products), ts);
            && (T.DeleteUser(w.db, u).1.Ok? <==> !OwnsOrLeads(w.db, u) && u !in w.auth.db.audited)
            && (u in w.auth.db.audited ==> A.SignedFor(w.auth.minted, u))
  {
    hide Play, Run, Trace, TC.AccessPairs, A.SignedFor, T.DropMembers;
    StartLinked(products);
    PlayKeepsLinked(env, Start(products), ts);
    PlayIsARun(env, Start(products), ts);
    A.RunKeepsAudit(env, INIT, Trace(env, Start(products), ts));
  }

  /** Once the last statement of a grant has run, its user stays in every continuation, and every attempt to delete them fails. */
  lemma CompletedGrantForbidsDeletion(env: Env, products: set<T.Product>, before: seq<Turn>, h: nat, after: seq<Turn>)
    requires var w := Play(env, Start(products), before);
             Enabled(w.auth, h, Audit) && w.auth.handlers[h].userId in w.db.users
    ensures var w := Play(env, Start(products), before);
            var u := w.auth.handlers[h].userId;
            var v := Play(env, Take(env, w, Auth(At(h, Audit))), after);
            u in v.db.users && T.DeleteUser(v.db, u) == (v.db, Err(Database))
  {
    hide Play, Run, Trace, Take, Step, TC.AccessPairs, A.SignedFor, T.DropMembers;
    var w := Play(env, Start(products), before);
    var w1 := Take(env, w, Auth(At(h, Audit)));
    StartLinked(products);
    PlayKeepsLinked(env, Start(products), before);
    TakeKeepsLinked(env, w, Auth(At(h, Audit)));
    PlayKeepsLinked(env, w1, after);
    PlayIsARun(env, Start(products), before);
    A.RunKeepsAudit(env, INIT, Trace(env, Start(products), before));
    A.StepKeepsAudit(env, w.auth, At(h, Audit));
    AuditTurn(env, w, h);
    PlayIsARun(env, w1, after);
    A.RunKeepsAudit(env, w1.auth, Trace(env, w1, after));
  }

  lemma AuditTurn(env: Env, w: World, h: nat)
    requires Enabled(w.auth, h, Audit) && w.auth.handlers[h].userId in w.auth.db.users
    ensures var v := Take(env, w, Auth(At(h, Audit)));
            v.auth == Step(env, w.auth, At(h, Audit)) && w.auth.handlers[h].userId in v.auth.db.audited
  {
    OneStep(env, w.auth, At(h, Audit));
  }
}
