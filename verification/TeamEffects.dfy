// What each team statement changes for those who look: the token lookup, the
// product gate, the claims, and who holds a slug, a flag or a membership.

module TeamEffects {
  import opened Prelude
  import opened TeamTables
  import opened TeamInvariants
  import opened TeamClaims
  import O = TeamOwners
  import Slug

  // ── Slugs and flags ───────────────────────────────────────────────────────

  predicate Holds(ts: map<TeamId, Team>, t: TeamId, slug: string) { t in ts && ts[t].slug == slug }

  /** A slug can be taken exactly if it is valid and nobody else has it; afterwards its holder is that team alone. */
  lemma UpdateTeamTakesSlug(db: Db, t: TeamId, slug: string)
    requires Inv(db) && t in db.teams
    ensures var (d, r) := UpdateTeam(db, t, Some(slug), None);
            && (r.Ok? <==> Slug.ValidSlug(slug) && forall k :: Holds(db.teams, k, slug) ==> k == t)
            && (r.Ok? ==> forall k :: Holds(d.teams, k, slug) <==> k == t)
            && (r.Err? ==> d == db && r.error == if Slug.ValidSlug(slug) then Conflict else Validation)
  {
    hide Inv, Slug.ValidSlug;
    if SlugTakenByOther(db.teams, slug, t) {
      var k :| k in db.teams && k != t && db.teams[k].slug == slug;
      assert Holds(db.teams, k, slug);
    } else {
      assert forall k :: Holds(db.teams, k, slug) ==> k == t;
    }
  }

  // ── Invitations ───────────────────────────────────────────────────────────

  predicate TokenOf(ms: map<MemberId, Member>, token: string, m: MemberId) { m in ms && ms[m].token == Some(token) }

  predicate InvitedRow(x: Member, t: TeamId, u: UserId) { x.team == t && x.user == u && x.status.Invited? }

  /** A fresh token replaces the old one on the same row: the new one finds it, the old one finds nothing. */
  lemma RefreshReplacesToken(db: Db, t: TeamId, u: UserId, token: string, expires: nat, before: string) returns (m: MemberId)
    requires Inv(db) && RefreshInvite(db, t, u, token, expires).1.Ok? && token != before
    requires exists m :: TokenOf(db.members, before, m) && InvitedRow(db.members[m], t, u)
    ensures var d := RefreshInvite(db, t, u, token, expires).0;
            && m in d.members && d.members[m].team == t && d.members[m].user == u && d.members[m].tokenExpires == expires
            && (forall k :: TokenOf(d.members, token, k) <==> k == m)
            && (forall k :: !TokenOf(d.members, before, k))
  {
    hide SlugsOk, RolesOk, AllPresent, Mirror, HoldsOk, ProductRolesOk, TeamsOk;
    m :| TokenOf(db.members, before, m) && InvitedRow(db.members[m], t, u);
  }

  /** A direct add succeeds exactly for an existing team and user (or an existing row), and leaves one active row for them. */
  lemma AddActiveMakesMember(db: Db, t: TeamId, u: UserId, id: MemberId)
    requires Inv(db) && id !in db.members
    ensures var (d, r) := AddActive(db, t, u, id);
            && (r.Ok? <==> t in db.teams && u in db.users)
            && (r.Ok? ==> ActiveRows(d.members, t, u) == {if HasRow(db.members, t, u) then RowOf(db.members, t, u) else id})
            && (forall v :: v != u ==> ActiveRows(d.members, t, v) == ActiveRows(db.members, t, v))
  {
    hide SlugsOk, RolesOk, AllPresent, Mirror, HoldsOk, ProductRolesOk, TeamsOk;
    var (d, r) := AddActive(db, t, u, id);
    if HasRow(db.members, t, u) {
      var m := RowOf(db.members, t, u);
      assert forall k :: k in d.members && d.members[k].team == t && d.members[k].user == u ==> k == m;
      assert d.members[m].status.Active?;
    }
    forall v: UserId | v != u ensures ActiveRows(d.members, t, v) == ActiveRows(db.members, t, v) {
      forall k ensures k in ActiveRows(d.members, t, v) <==> k in ActiveRows(db.members, t, v) {}
    }
  }

  // ── The product gate ──────────────────────────────────────────────────────

  predicate ActiveIn(ms: map<MemberId, Member>, t: TeamId, u: UserId) {
    exists m :: m in ms && ms[m].team == t && ms[m].user == u && ms[m].status.Active?
  }

  predicate IsRowOf(ms: map<MemberId, Member>, m: MemberId, t: TeamId, u: UserId) {
    m in ms && ms[m].team == t && ms[m].user == u
  }

  /** Who is an active member of which team after a statement, read off the tables before it. */
  ghost predicate ActiveAfter(db: Db, op: Op, t: TeamId, u: UserId) {
    match op
    case OpCreateTeam(n, o, g, ids) =>
      ActiveIn(db.members, t, u) || (CreateTeam(db, n, o, g, ids).1.Ok? && (t, u) == (ids.team, o))
    case OpAddActive(k, v, m) => ActiveIn(db.members, t, u) || (AddActive(db, k, v, m).1.Ok? && (t, u) == (k, v))
    case OpAccept(m) => ActiveIn(db.members, t, u) || IsRowOf(db.members, m, t, u)
    case OpDecline(m) => ActiveIn(db.members, t, u) && !IsRowOf(db.members, m, t, u)
    case OpRemove(k, v) => ActiveIn(db.members, t, u) && (t, u) != (k, v)
    case OpDeleteTeam(k) => ActiveIn(db.members, t, u) && t != k
    case OpDeleteUser(v) => ActiveIn(db.members, t, u) && !(u == v && DeleteUser(db, v).1.Ok?)
    case _ => ActiveIn(db.members, t, u)
  }

  /** Which teams have which product after it. */
  predicate EnabledAfter(db: Db, op: Op, t: TeamId, p: Product) {
    match op
    case OpEnableProduct(k, q, a) => (t, p) in db.access || (EnableProduct(db, k, q, a).1.Ok? && (t, p) == (k, q))
    case OpDisableProduct(k, q) => (t, p) in db.access && (t, p) != (k, q)
    case OpDeleteTeam(k) => (t, p) in db.access && t != k
    case _ => (t, p) in db.access
  }

  lemma EnabledAfterIs(db: Db, op: Op, t: TeamId, p: Product)
    requires Inv(db)
    ensures (t, p) in Apply(db, op).access <==> EnabledAfter(db, op, t, p)
  {
    hide SlugsOk, MembersUnique, RolesOk, AllPresent, Mirror, HoldsOk, ProductRolesOk, TeamsOk, MembersOk;
    if op.OpEnableProduct? || op.OpDisableProduct? {
    } else if op.OpDeleteTeam? {
      hide DeleteTeam;
      if op.team in db.teams { DeleteTeamRows(db, op.team); } else { DeleteMissingTeam(db, op.team); }
    } else {
      hide Inv;
      OthersKeepAccess(db, op);
    }
  }

  lemma DeleteMissingTeam(db: Db, t: TeamId)
    requires t !in db.teams
    ensures DeleteTeam(db, t).0 == db
  {
    hide DropMembers, DropRoles, DropAccess;
  }

  lemma OthersKeepAccess(db: Db, op: Op)
    requires !op.OpEnableProduct? && !op.OpDisableProduct? && !op.OpDeleteTeam?
    ensures Apply(db, op).access == db.access
  {
    hide HasRow, TokenTaken, TokenTakenElsewhere, NameTaken, HasInvitedRow, RoleIn, ActiveRows, OrgExists, ForeignKeyError, CheckSlug,
      Unflag, Patched, Slug.UniqueSlug;
  }

  /** A row set to active adds its own user and team, and nobody else. */
  lemma ActiveSet(ms: map<MemberId, Member>, m: MemberId, x: Member, t: TeamId, u: UserId)
    requires x.status.Active? && (m in ms ==> ms[m].team == x.team && ms[m].user == x.user)
    ensures ActiveIn(ms[m := x], t, u) <==> ActiveIn(ms, t, u) || (t, u) == (x.team, x.user)
  {
    var ns := ms[m := x];
    if ActiveIn(ms, t, u) {
      var n :| n in ms && ms[n].team == t && ms[n].user == u && ms[n].status.Active?;
      assert n in ns && ns[n].team == t && ns[n].user == u && ns[n].status.Active?;
    }
    assert m in ns;
  }

  /** Rows that go are rows of users who are out, rows that stay are untouched. */
  lemma ActiveAmong(ms: map<MemberId, Member>, ns: map<MemberId, Member>, t: TeamId, u: UserId, out: bool)
    requires forall m :: m in ns ==> m in ms && ns[m] == ms[m]
    requires forall m :: m in ms && ms[m].team == t && ms[m].user == u ==> (m in ns <==> !out)
    ensures ActiveIn(ns, t, u) <==> ActiveIn(ms, t, u) && !out
  {
    if ActiveIn(ms, t, u) && !out {
      var m :| m in ms && ms[m].team == t && ms[m].user == u && ms[m].status.Active?;
      assert m in ns && ns[m] == ms[m];
    }
  }

  lemma ActiveAfterCreation(db: Db, lowered: string, owner: UserId, org: Option<OrgId>, ids: NewIds, t: TeamId, u: UserId)
    ensures ActiveIn(CreateTeam(db, lowered, owner, org, ids).0.members, t, u) <==>
            ActiveAfter(db, OpCreateTeam(lowered, owner, org, ids), t, u)
  {
    hide Slug.UniqueSlug, ActiveIn;
    if CreateTeam(db, lowered, owner, org, ids).1.Ok? {
      ActiveSet(db.members, ids.member, Member(ids.team, owner, Active, None, 0), t, u);
    }
  }

  lemma ActiveAfterInvitation(db: Db, k: TeamId, v: UserId, inviter: UserId, token: string, expires: nat, id: MemberId, t: TeamId, u: UserId)
    ensures ActiveIn(InviteMember(db, k, v, inviter, token, expires, id).0.members, t, u) <==>
            ActiveAfter(db, OpInvite(k, v, inviter, token, expires, id), t, u)
  {
    hide HasRow, TokenTaken;
    var ms, ns := db.members, InviteMember(db, k, v, inviter, token, expires, id).0.members;
    if ActiveIn(ms, t, u) {
      var m :| m in ms && ms[m].team == t && ms[m].user == u && ms[m].status.Active?;
      assert m in ns && ns[m] == ms[m];
    }
  }

  lemma ActiveAfterAdd(db: Db, k: TeamId, v: UserId, id: MemberId, t: TeamId, u: UserId)
    ensures ActiveIn(AddActive(db, k, v, id).0.members, t, u) <==> ActiveAfter(db, OpAddActive(k, v, id), t, u)
  {
    hide HasRow, ActiveIn;
    if HasRow(db.members, k, v) {
      var m := RowOf(db.members, k, v);
      ActiveSet(db.members, m, db.members[m].(status := Active), t, u);
    } else {
      ActiveSet(db.members - {id}, id, Member(k, v, Active, None, 0), t, u);
      if id !in db.members { assert db.members - {id} == db.members; }
    }
  }

  lemma ActiveAfterAccept(db: Db, m: MemberId, t: TeamId, u: UserId)
    ensures ActiveIn(AcceptInvitation(db, m).members, t, u) <==> ActiveAfter(db, OpAccept(m), t, u)
  {
    hide ActiveIn;
    if m in db.members {
      ActiveSet(db.members, m, db.members[m].(status := Active, token := None, tokenExpires := 0), t, u);
    }
  }

  lemma ActiveAfterRefresh(db: Db, k: TeamId, v: UserId, token: string, expires: nat, t: TeamId, u: UserId)
    ensures ActiveIn(RefreshInvite(db, k, v, token, expires).0.members, t, u) <==>
            ActiveAfter(db, OpRefreshInvite(k, v, token, expires), t, u)
  {
    hide TokenTakenElsewhere, HasInvitedRow;
    var ms, ns := db.members, RefreshInvite(db, k, v, token, expires).0.members;
    if ActiveIn(ms, t, u) {
      var m :| m in ms && ms[m].team == t && ms[m].user == u && ms[m].status.Active?;
      assert m in ns && ns[m] == ms[m];
    }
  }

  lemma ActiveAfterDecline(db: Db, m: MemberId, t: TeamId, u: UserId)
    requires Inv(db)
    ensures ActiveIn(DeclineInvitation(db, m).members, t, u) <==> ActiveAfter(db, OpDecline(m), t, u)
  {
    hide ActiveIn, SlugsOk, RolesOk, AllPresent, Mirror, HoldsOk, ProductRolesOk, TeamsOk, MembersOk;
    ActiveAmong(db.members, DeclineInvitation(db, m).members, t, u, IsRowOf(db.members, m, t, u));
  }

  lemma ActiveAfterRemoval(db: Db, k: TeamId, v: UserId, t: TeamId, u: UserId)
    ensures ActiveIn(RemoveMember(db, k, v).0.members, t, u) <==> ActiveAfter(db, OpRemove(k, v), t, u)
  {
    hide ActiveIn;
    ActiveAmong(db.members, RemoveMember(db, k, v).0.members, t, u, (t, u) == (k, v));
  }

  lemma ActiveAfterUserDeletion(db: Db, v: UserId, t: TeamId, u: UserId)
    ensures ActiveIn(DeleteUser(db, v).0.members, t, u) <==> ActiveAfter(db, OpDeleteUser(v), t, u)
  {
    hide ActiveIn;
    ActiveAmong(db.members, DeleteUser(db, v).0.members, t, u, u == v && DeleteUser(db, v).1.Ok?);
  }

  lemma ActiveAfterTeamDeletion(db: Db, k: TeamId, t: TeamId, u: UserId)
    requires Inv(db)
    ensures ActiveIn(DeleteTeam(db, k).0.members, t, u) <==> ActiveAfter(db, OpDeleteTeam(k), t, u)
  {
    hide DeleteTeam, SlugsOk, MembersUnique, RolesOk, AllPresent, Mirror, HoldsOk, ProductRolesOk, TeamsOk;
    if k in db.teams { DeleteTeamRows(db, k); } else { DeleteMissingTeam(db, k); }
    var ms, ns := db.members, DeleteTeam(db, k).0.members;
    if ActiveIn(ms, t, u) && t != k {
      var m :| m in ms && ms[m].team == t && ms[m].user == u && ms[m].status.Active?;
      assert m in ns && ns[m] == ms[m];
    }
  }

  lemma ActiveAfterOthers(db: Db, op: Op, t: TeamId, u: UserId)
    requires !TouchesMembers(op)
    ensures ActiveIn(Apply(db, op).members, t, u) <==> ActiveAfter(db, op, t, u)
  {
    hide Apply, ActiveIn;
    OthersKeepMembers(db, op);
  }

  lemma ActiveAfterIs(db: Db, op: Op, t: TeamId, u: UserId)
    requires Inv(db)
    ensures ActiveIn(Apply(db, op).members, t, u) <==> ActiveAfter(db, op, t, u)
  {
    hide Inv, ActiveIn, ActiveAfter, CreateTeam, InviteMember, AddActive, AcceptInvitation, RefreshInvite, DeclineInvitation, RemoveMember,
      DeleteUser, DeleteTeam, UpdateTeam, AdminUpdateTeam, EnsureOrg, DeleteOrg, CreateRole, UpdateRole, DeleteRole, AssignRole,
      UnassignRole, EnableProduct, DisableProduct, AssignProductRole, RevokeProductRole;
    match op
    case OpCreateTeam(n, o, g, ids) => ActiveAfterCreation(db, n, o, g, ids, t, u);
    case OpInvite(k, v, i, token, e, m) => ActiveAfterInvitation(db, k, v, i, token, e, m, t, u);
    case OpAddActive(k, v, m) => ActiveAfterAdd(db, k, v, m, t, u);
    case OpAccept(m) => ActiveAfterAccept(db, m, t, u);
    case OpRefreshInvite(k, v, token, e) => ActiveAfterRefresh(db, k, v, token, e, t, u);
    case OpDeleteTeam(k) => ActiveAfterTeamDeletion(db, k, t, u);
    case OpDecline(m) => ActiveAfterDecline(db, m, t, u);
    case OpRemove(k, v) => ActiveAfterRemoval(db, k, v, t, u);
    case OpDeleteUser(v) => ActiveAfterUserDeletion(db, v, t, u);
    case _ => ActiveAfterOthers(db, op, t, u);
  }

  lemma AccessThroughTeams(db: Db, u: UserId, p: Product)
    ensures UserHasProductAccess(db, u, p) <==> exists t: TeamId :: ActiveIn(db.members, t, u) && (t, p) in db.access
  {
    if UserHasProductAccess(db, u, p) {
      var m :| m in db.members && db.members[m].user == u && db.members[m].status.Active? && (db.members[m].team, p) in db.access;
      assert ActiveIn(db.members, db.members[m].team, u);
    }
  }

  /**
   * Exactly how every statement changes the answers of the product gate: it is open
   * afterwards for those who, by the statement, are active in a team that, by the
   * statement, has the product.
   */
  lemma GateAfter(db: Db, op: Op, u: UserId, p: Product)
    requires Inv(db)
    ensures UserHasProductAccess(Apply(db, op), u, p) <==>
            exists t: TeamId :: ActiveAfter(db, op, t, u) && EnabledAfter(db, op, t, p)
  {
    hide Inv, Apply, UserHasProductAccess, ActiveIn, ActiveAfter, EnabledAfter;
    AccessThroughTeams(Apply(db, op), u, p);
    forall t: TeamId
      ensures ActiveIn(Apply(db, op).members, t, u) <==> ActiveAfter(db, op, t, u)
      ensures (t, p) in Apply(db, op).access <==> EnabledAfter(db, op, t, p)
    {
      ActiveAfterIs(db, op, t, u);
      EnabledAfterIs(db, op, t, p);
    }
  }

  /** The three statements that can open a gate, and what each must find in the tables. */
  ghost predicate Opens(db: Db, op: Op, u: UserId, p: Product) {
    match op
    case OpAddActive(t, v, m) => v == u && (t, p) in db.access && AddActive(db, t, v, m).1.Ok?
    case OpAccept(m) => m in db.members && db.members[m].user == u && (db.members[m].team, p) in db.access
    case OpEnableProduct(t, q, a) => q == p && ActiveIn(db.members, t, u) && EnableProduct(db, t, q, a).1.Ok?
    case _ => false
  }

  /** A gate that is shut is opened by exactly those statements. */
  lemma ShutGateOpensIff(db: Db, op: Op, u: UserId, p: Product)
    requires Inv(db) && !UserHasProductAccess(db, u, p)
    ensures UserHasProductAccess(Apply(db, op), u, p) <==> Opens(db, op, u, p)
  {
    hide Apply, UserHasProductAccess, ActiveIn, CreateTeam, AddActive, EnableProduct, DeleteUser, SlugsOk, MembersUnique, RolesOk, AllPresent,
      Mirror, HoldsOk, ProductRolesOk, TeamsOk, MembersOk;
    GateAfter(db, op, u, p);
    AccessThroughTeams(db, u, p);
    if Opens(db, op, u, p) {
      var t := if op.OpAccept? then db.members[op.member].team else op.team;
      assert ActiveAfter(db, op, t, u) && EnabledAfter(db, op, t, p);
    } else if UserHasProductAccess(Apply(db, op), u, p) {
      var t: TeamId :| ActiveAfter(db, op, t, u) && EnabledAfter(db, op, t, p);
      if op.OpCreateTeam? { NewTeamsHaveNothing(db, op); }
    }
  }

  lemma NewTeamsHaveNothing(db: Db, op: Op)
    requires Inv(db) && op.OpCreateTeam? && CreateTeam(db, op.lowered, op.owner, op.newOrg, op.ids).1.Ok?
    ensures forall p :: (op.ids.team, p) !in db.access
  {
    hide Slug.UniqueSlug, SlugsOk, MembersUnique, RolesOk, AllPresent, Mirror, HoldsOk, ProductRolesOk, TeamsOk, MembersOk;
  }

  /** No statement of the run opens the gate for this user and product. */
  ghost predicate NeverOpened(db: Db, ops: seq<Op>, u: UserId, p: Product)
    decreases |ops|
  {
    ops == [] || (!Opens(db, ops[0], u, p) && NeverOpened(Apply(db, ops[0]), ops[1..], u, p))
  }

  /** The gate stays shut throughout a run. */
  ghost predicate ShutThroughout(db: Db, ops: seq<Op>, u: UserId, p: Product)
    decreases |ops|
  {
    !UserHasProductAccess(db, u, p) && (ops == [] || ShutThroughout(Apply(db, ops[0]), ops[1..], u, p))
  }

  /** A gate once shut stays shut throughout exactly those runs in which none of the three statements opens it. */
  lemma {:induction false} ShutThroughoutIff(db: Db, ops: seq<Op>, u: UserId, p: Product)
    requires Inv(db) && !UserHasProductAccess(db, u, p)
    ensures ShutThroughout(db, ops, u, p) <==> NeverOpened(db, ops, u, p)
    decreases |ops|
  {
    hide Inv, Apply, Opens, UserHasProductAccess;
    if ops != [] {
      ShutGateOpensIff(db, ops[0], u, p);
      ApplyKeepsInv(db, ops[0]);
      if !Opens(db, ops[0], u, p) { ShutThroughoutIff(Apply(db, ops[0]), ops[1..], u, p); }
    }
  }

  // ── Product roles of members who have not accepted ────────────────────────

  lemma ProductRolesComeFromAssignment(db: Db, op: Op)
    requires !op.OpAssignProductRole?
    ensures Apply(db, op).productRoles.Keys <= db.productRoles.Keys
  {
    hide HasRow, TokenTaken, TokenTakenElsewhere, NameTaken, HasInvitedRow, RoleIn, ActiveRows, OrgExists, CheckSlug,
      Unflag, Patched, Slug.UniqueSlug;
  }

  /** A row that is still there and was active is active. */
  lemma ActiveRowStays(db: Db, op: Op, t: TeamId, u: UserId)
    requires Inv(db) && ActiveIn(db.members, t, u)
    ensures HasRow(Apply(db, op).members, t, u) ==> ActiveIn(Apply(db, op).members, t, u)
  {
    hide Apply, SlugsOk, RolesOk, AllPresent, Mirror, HoldsOk, ProductRolesOk, TeamsOk, MembersOk;
    if op.OpDeleteTeam? || op.OpDeleteUser? || op.OpDecline? || op.OpRemove? {
      O.DeletionsOnlyDrop(db, op);
    } else {
      ActiveAfterIs(db, op, t, u);
    }
  }

  /** Every other statement keeps the rule that product roles belong to active members. */
  lemma OthersKeepHoldersActive(db: Db, op: Op)
    requires Inv(db) && HoldersActive(db) && !op.OpAssignProductRole?
    ensures HoldersActive(Apply(db, op))
  {
    hide Apply, SlugsOk, MembersUnique, RolesOk, AllPresent, Mirror, HoldsOk, TeamsOk, MembersOk;
    var d := Apply(db, op);
    ApplyKeepsInv(db, op);
    ProductRolesComeFromAssignment(db, op);
    forall t, u, p | (t, u, p) in d.productRoles ensures ActiveRows(d.members, t, u) != {} {
      assert (t, u, p) in db.productRoles;
      ActiveRowsAre(db.members, t, u);
      ActiveRowStays(db, op, t, u);
      ActiveRowsAre(d.members, t, u);
    }
  }

  lemma ActiveRowsAre(ms: map<MemberId, Member>, t: TeamId, u: UserId)
    ensures ActiveRows(ms, t, u) != {} <==> ActiveIn(ms, t, u)
  {
    if ActiveIn(ms, t, u) {
      var m :| m in ms && ms[m].team == t && ms[m].user == u && ms[m].status.Active?;
      assert m in ActiveRows(ms, t, u);
    }
  }

  /** An assignment, if it succeeds, is to an active member. */
  predicate ToActive(db: Db, op: Op) {
    match op
    case OpAssignProductRole(t, u, p, x, a) =>
      (AssignProductRole(db, t, u, p, x, a, "").1.Ok? ==> ActiveRows(db.members, t, u) != {})
    case _ => true
  }

  ghost predicate AssignsToActive(db: Db, ops: seq<Op>)
    decreases |ops|
  {
    ops == [] || (ToActive(db, ops[0]) && AssignsToActive(Apply(db, ops[0]), ops[1..]))
  }

  ghost predicate HoldersActiveThroughout(db: Db, ops: seq<Op>)
    decreases |ops|
  {
    HoldersActive(db) && (ops == [] || HoldersActiveThroughout(Apply(db, ops[0]), ops[1..]))
  }

  lemma StatementKeepsHoldersActiveIff(db: Db, op: Op)
    requires Inv(db) && HoldersActive(db)
    ensures HoldersActive(Apply(db, op)) <==> ToActive(db, op)
  {
    hide Inv, HoldersActive, HasRow, ActiveRows, ForeignKeyError;
    if op.OpAssignProductRole? {
      if AssignProductRole(db, op.team, op.user, op.product, op.roleText, op.admin, "").1.Ok? {
        AssignmentKeepsHoldersActiveIff(db, op.team, op.user, op.product, op.roleText, op.admin, "");
      }
    } else {
      hide Apply;
      OthersKeepHoldersActive(db, op);
    }
  }

  /** The rule holds throughout a run exactly if every assignment in it that succeeds is to an active member. */
  lemma {:induction false} HoldersActiveThroughoutIff(db: Db, ops: seq<Op>)
    requires Inv(db) && HoldersActive(db)
    ensures HoldersActiveThroughout(db, ops) <==> AssignsToActive(db, ops)
    decreases |ops|
  {
    hide Inv, HoldersActive, Apply, ToActive;
    if ops != [] {
      StatementKeepsHoldersActiveIff(db, ops[0]);
      ApplyKeepsInv(db, ops[0]);
      if ToActive(db, ops[0]) { HoldersActiveThroughoutIff(Apply(db, ops[0]), ops[1..]); }
    }
  }

  // ── Deletions ─────────────────────────────────────────────────────────────

  /** A user can be deleted exactly if they own and lead nothing and no audit row names them; then no row of any table does. */
  lemma DeleteUserIff(db: Db, u: UserId)
    requires Inv(db) && u in db.users
    ensures var (d, r) := DeleteUser(db, u);
            && (r.Ok? <==> u !in db.audited && forall t :: t in db.teams ==> db.teams[t].owner != u && db.teams[t].leader != u)
            && (r.Ok? ==> u !in d.users && d.teams == db.teams &&
                          (forall m :: m in d.members ==> d.members[m].user != u) &&
                          (forall k :: k in d.productRoles ==> k.1 != u))
            && (r.Err? ==> d == db && r.error == Database)
  {
    hide SlugsOk, RolesOk, AllPresent, Mirror, HoldsOk, TeamsOk;
    var (d, r) := DeleteUser(db, u);
    if r.Ok? {
      DeleteUserKeeps(db, u);
      forall k | k in d.productRoles ensures k.1 != u {
        assert (k.0, k.1, k.2) in d.productRoles;
        assert HasRow(d.members, k.0, k.1);
      }
    }
  }
}
