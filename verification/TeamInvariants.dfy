// What every statement on the team tables keeps: the foreign keys and unique
// indexes the migrations declare, and the two rules the code alone upholds —
// each team has its one "All" role, and its holders are exactly the active members.

module TeamInvariants {
  import opened Prelude
  import opened TeamTables
  import Slug

  ghost predicate TeamsOk(ts: map<TeamId, Team>, users: set<UserId>, orgs: set<OrgId>) {
    && (forall t :: t in ts ==> ts[t].owner in users && ts[t].leader in users)
    && (forall t :: t in ts && ts[t].org.Some? ==> ts[t].org.value in orgs)
  }

  ghost predicate SlugsOk(ts: map<TeamId, Team>) {
    && (forall t :: t in ts ==> Slug.ValidSlug(ts[t].slug))
    && (forall t, u :: t in ts && u in ts && ts[t].slug == ts[u].slug ==> t == u)
  }

  ghost predicate OrgsOk(orgs: map<OrgId, string>) {
    forall a, b :: a in orgs && b in orgs && orgs[a] == orgs[b] ==> a == b
  }

  ghost predicate MembersOk(ms: map<MemberId, Member>, teams: set<TeamId>, users: set<UserId>) {
    forall m :: m in ms ==> ms[m].team in teams && ms[m].user in users
  }

  /** UNIQUE(team_id, user_id) and UNIQUE(invite_token). */
  ghost predicate MembersUnique(ms: map<MemberId, Member>) {
    && (forall m, n :: m in ms && n in ms && ms[m].team == ms[n].team && ms[m].user == ms[n].user ==> m == n)
    && (forall m, n :: m in ms && n in ms && ms[m].token.Some? && ms[m].token == ms[n].token ==> m == n)
  }

  /** Names are unique per team, and no team has two "All" roles. */
  ghost predicate RolesOk(rs: map<RoleId, Role>, teams: set<TeamId>) {
    && (forall r :: r in rs ==> rs[r].team in teams)
    && (forall r, s :: r in rs && s in rs && rs[r].team == rs[s].team && rs[r].name == rs[s].name ==> r == s)
    && (forall r, s :: r in rs && s in rs && rs[r].team == rs[s].team && rs[r].isAll && rs[s].isAll ==> r == s)
  }

  ghost predicate IsAllOf(rs: map<RoleId, Role>, r: RoleId, t: TeamId) { r in rs && rs[r].team == t && rs[r].isAll }

  ghost predicate AllPresent(rs: map<RoleId, Role>, teams: set<TeamId>) {
    forall t :: t in teams ==> exists r :: IsAllOf(rs, r, t)
  }

  /** The composite foreign keys: an assignment never crosses teams. */
  ghost predicate HoldsOk(holds: set<(RoleId, MemberId)>, rs: map<RoleId, Role>, ms: map<MemberId, Member>) {
    forall r, m :: (r, m) in holds ==> r in rs && m in ms && rs[r].team == ms[m].team
  }

  ghost predicate Mirror(holds: set<(RoleId, MemberId)>, rs: map<RoleId, Role>, ms: map<MemberId, Member>) {
    forall r, m :: r in rs && m in ms && rs[r].isAll && rs[r].team == ms[m].team ==>
      ((r, m) in holds <==> ms[m].status.Active?)
  }

  ghost predicate AccessOk(access: set<(TeamId, Product)>, teams: set<TeamId>, products: set<Product>) {
    forall t, p :: (t, p) in access ==> t in teams && p in products
  }

  ghost predicate ProductRolesOk(prs: map<(TeamId, UserId, Product), string>, access: set<(TeamId, Product)>,
                                 ms: map<MemberId, Member>) {
    forall t, u, p :: (t, u, p) in prs ==> (t, p) in access && HasRow(ms, t, u)
  }

  ghost predicate Inv(db: Db) {
    && db.audited <= db.users
    && TeamsOk(db.teams, db.users, db.orgs.Keys)
    && SlugsOk(db.teams)
    && OrgsOk(db.orgs)
    && MembersOk(db.members, db.teams.Keys, db.users)
    && MembersUnique(db.members)
    && RolesOk(db.roles, db.teams.Keys)
    && AllPresent(db.roles, db.teams.Keys)
    && HoldsOk(db.holds, db.roles, db.members)
    && Mirror(db.holds, db.roles, db.members)
    && AccessOk(db.access, db.teams.Keys, db.products)
    && ProductRolesOk(db.productRoles, db.access, db.members)
  }

  // ── One table at a time ───────────────────────────────────────────────────

  lemma SlugsOkSet(ts: map<TeamId, Team>, t: TeamId, x: Team)
    requires SlugsOk(ts) && Slug.ValidSlug(x.slug)
    requires forall k :: k in ts && k != t ==> ts[k].slug != x.slug
    ensures SlugsOk(ts[t := x])
  {
    hide Slug.ValidSlug;
  }

  lemma SlugsOkSame(ts: map<TeamId, Team>, us: map<TeamId, Team>)
    requires SlugsOk(ts)
    requires forall t :: t in us ==> t in ts && us[t].slug == ts[t].slug
    ensures SlugsOk(us)
  {
    hide Slug.ValidSlug;
  }

  lemma UniqueSlugIsNew(ts: map<TeamId, Team>, lowered: string)
    ensures Slug.ValidSlug(Slug.UniqueSlug(lowered, Slugs(ts)))
    ensures forall t :: t in ts ==> ts[t].slug != Slug.UniqueSlug(lowered, Slugs(ts))
  {
    var base := Slug.BaseSlug(lowered);
    Slug.CandidateValid(base, Slug.FirstFree(base, Slugs(ts), 0));
    forall t | t in ts ensures ts[t].slug in Slugs(ts) {}
  }

  lemma MembersUniqueSet(ms: map<MemberId, Member>, m: MemberId, x: Member)
    requires MembersUnique(ms)
    requires if m in ms then ms[m].team == x.team && ms[m].user == x.user else !HasRow(ms, x.team, x.user)
    requires x.token.Some? ==> forall n :: n in ms && n != m ==> ms[n].token != x.token
    ensures MembersUnique(ms[m := x])
  {
  }

  lemma TokenIsAlone(ms: map<MemberId, Member>, m: MemberId)
    requires MembersUnique(ms) && m in ms && ms[m].token.Some?
    ensures forall n :: n in ms && n != m ==> ms[n].token != ms[m].token
  {
  }

  lemma ProductRolesOkGrows(prs: map<(TeamId, UserId, Product), string>, access: set<(TeamId, Product)>,
                            ms: map<MemberId, Member>, ns: map<MemberId, Member>)
    requires ProductRolesOk(prs, access, ms)
    requires forall m :: m in ms ==> m in ns && ns[m].team == ms[m].team && ns[m].user == ms[m].user
    ensures ProductRolesOk(prs, access, ns)
  {
  }

  lemma RolesOkSub(rs: map<RoleId, Role>, ss: map<RoleId, Role>, teams: set<TeamId>, teams': set<TeamId>)
    requires RolesOk(rs, teams)
    requires forall r :: r in ss ==> r in rs && ss[r] == rs[r] && ss[r].team in teams'
    ensures RolesOk(ss, teams')
  {
  }

  lemma AllPresentKept(rs: map<RoleId, Role>, ss: map<RoleId, Role>, teams: set<TeamId>, teams': set<TeamId>)
    requires AllPresent(rs, teams)
    requires forall t :: t in teams' ==> t in teams || exists r :: IsAllOf(ss, r, t)
    requires forall r :: r in rs && rs[r].isAll && rs[r].team in teams' ==> r in ss && ss[r].team == rs[r].team && ss[r].isAll
    ensures AllPresent(ss, teams')
  {
    forall t | t in teams' ensures exists r :: IsAllOf(ss, r, t) {
      if t in teams {
        var r :| IsAllOf(rs, r, t);
        assert IsAllOf(ss, r, t);
      }
    }
  }

  // ── Teams and organizations ───────────────────────────────────────────────

  lemma CreateTeamKeeps(db: Db, lowered: string, owner: UserId, org: Option<OrgId>, ids: NewIds)
    requires Inv(db)
    ensures Inv(CreateTeam(db, lowered, owner, org, ids).0)
  {
    hide SlugsOk, MembersUnique, RolesOk, AllPresent, Mirror, HoldsOk, ProductRolesOk, Slug.ValidSlug, Slug.UniqueSlug;
    var d := CreateTeam(db, lowered, owner, org, ids).0;
    if d != db {
      UniqueSlugIsNew(db.teams, lowered);
      RoleTeams(db);
      SlugsOkSet(db.teams, ids.team, d.teams[ids.team]);
      MembersUniqueSet(db.members, ids.member, d.members[ids.member]);
      NewTeamRoles(db.roles, db.teams.Keys, ids.role, d.roles[ids.role]);
      NewTeamHolds(db.holds, db.roles, db.members, db.teams.Keys, ids.role, d.roles[ids.role], ids.member, d.members[ids.member]);
      ProductRolesOkGrows(db.productRoles, db.access, db.members, d.members);
      assert d.teams.Keys == db.teams.Keys + {ids.team};
    }
  }

  lemma NewTeamRoles(rs: map<RoleId, Role>, teams: set<TeamId>, r: RoleId, x: Role)
    requires RolesOk(rs, teams) && AllPresent(rs, teams) && r !in rs && x.team !in teams && x.isAll
    ensures RolesOk(rs[r := x], teams + {x.team}) && AllPresent(rs[r := x], teams + {x.team})
  {
    assert IsAllOf(rs[r := x], r, x.team);
    AllPresentKept(rs, rs[r := x], teams, teams + {x.team});
  }

  lemma NewTeamHolds(holds: set<(RoleId, MemberId)>, rs: map<RoleId, Role>, ms: map<MemberId, Member>, teams: set<TeamId>,
                     r: RoleId, x: Role, m: MemberId, y: Member)
    requires HoldsOk(holds, rs, ms) && Mirror(holds, rs, ms) && r !in rs && m !in ms
    requires (forall s :: s in rs ==> rs[s].team in teams) && (forall n :: n in ms ==> ms[n].team in teams)
    requires x.team == y.team && x.team !in teams && y.status.Active?
    ensures HoldsOk(holds + {(r, m)}, rs[r := x], ms[m := y]) && Mirror(holds + {(r, m)}, rs[r := x], ms[m := y])
  {
  }

  lemma UpdateTeamKeeps(db: Db, t: TeamId, slug: Option<string>, leader: Option<UserId>)
    requires Inv(db)
    ensures Inv(UpdateTeam(db, t, slug, leader).0)
  {
    hide MembersUnique, RolesOk, AllPresent, Mirror, HoldsOk, ProductRolesOk, Slug.ValidSlug;
    var d := UpdateTeam(db, t, slug, leader).0;
    if d != db {
      assert d.teams.Keys == db.teams.Keys;
      SlugsOkSet(db.teams, t, d.teams[t]);
    }
  }

  lemma AdminUpdateTeamKeeps(db: Db, t: TeamId, p: AdminPatch)
    requires Inv(db)
    ensures Inv(AdminUpdateTeam(db, t, p).0)
  {
    hide SlugsOk, MembersUnique, RolesOk, AllPresent, Mirror, HoldsOk, ProductRolesOk, Slug.ValidSlug;
    var d := AdminUpdateTeam(db, t, p).0;
    if d != db {
      assert d.teams.Keys == db.teams.Keys;
      AdminUpdateSlugs(db, t, p);
    }
  }

  lemma AdminUpdateSlugs(db: Db, t: TeamId, p: AdminPatch)
    requires SlugsOk(db.teams)
    ensures SlugsOk(AdminUpdateTeam(db, t, p).0.teams)
  {
    hide Slug.ValidSlug;
    if AdminUpdateTeam(db, t, p).1.Ok? {
      var ts := if p.support == Some(true) then Unflag(db.teams, Coalesce(p.org, db.teams[t].org).value) else db.teams;
      SlugsOkSame(db.teams, ts);
      SlugsOkSet(ts, t, Patched(ts[t], p));
    }
  }

  lemma EnsureOrgKeeps(db: Db, slug: string, id: OrgId)
    requires Inv(db)
    ensures Inv(EnsureOrg(db, slug, id).0)
  {
  }

  lemma DeleteOrgKeeps(db: Db, o: OrgId)
    requires Inv(db)
    ensures Inv(DeleteOrg(db, o).0)
  {
    hide SlugsOk, MembersUnique, RolesOk, AllPresent, Mirror, HoldsOk, ProductRolesOk;
    var d := DeleteOrg(db, o).0;
    if d != db {
      assert d.teams.Keys == db.teams.Keys;
      SlugsOkSame(db.teams, d.teams);
    }
  }

  // ── Cascades ──────────────────────────────────────────────────────────────

  /** What survives of the invariant while a deleted team's or user's rows go one table at a time. */
  ghost predicate RowsOk(db: Db) {
    && MembersUnique(db.members)
    && HoldsOk(db.holds, db.roles, db.members)
    && Mirror(db.holds, db.roles, db.members)
    && ProductRolesOk(db.productRoles, db.access, db.members)
  }

  lemma DropMembersKeeps(db: Db, gone: set<MemberId>)
    requires RowsOk(db)
    ensures RowsOk(DropMembers(db, gone))
  {
    var d := DropMembers(db, gone);
    forall t, u, p | (t, u, p) in d.productRoles
      ensures (t, p) in d.access && HasRow(d.members, t, u)
    {
      assert (t, u, p) in db.productRoles;
      RowSurvives(db, gone, t, u);
    }
  }

  /** A (team, user) pair that the deleted rows do not carry keeps its row. */
  lemma RowSurvives(db: Db, gone: set<MemberId>, t: TeamId, u: UserId)
    requires HasRow(db.members, t, u)
    requires forall m :: m in gone && m in db.members ==> (t, u) != (db.members[m].team, db.members[m].user)
    ensures HasRow(db.members - gone, t, u)
  {
    var m :| m in db.members && db.members[m].team == t && db.members[m].user == u;
    assert m in db.members - gone;
  }

  lemma DropRolesKeeps(db: Db, gone: set<RoleId>)
    requires RowsOk(db)
    ensures RowsOk(DropRoles(db, gone))
  {
    hide MembersUnique, ProductRolesOk;
  }

  lemma DropAccessKeeps(db: Db, gone: set<(TeamId, Product)>)
    requires RowsOk(db)
    ensures RowsOk(DropAccess(db, gone))
  {
    hide MembersUnique, HoldsOk, Mirror;
    var d := DropAccess(db, gone);
    forall t, u, p | (t, u, p) in d.productRoles
      ensures (t, p) in d.access && HasRow(d.members, t, u)
    {
      assert (t, u, p) in db.productRoles;
    }
  }

  /** An assignment of a role of the team is an assignment to a member of the team. */
  lemma AssignmentsOfTeam(db: Db, t: TeamId)
    requires RowsOk(db)
    ensures forall h :: h in db.holds ==>
      h.0 in db.roles && h.1 in db.members && (db.roles[h.0].team == t <==> db.members[h.1].team == t)
  {
    hide MembersUnique, Mirror, ProductRolesOk;
    forall h | h in db.holds
      ensures h.0 in db.roles && h.1 in db.members && (db.roles[h.0].team == t <==> db.members[h.1].team == t)
    {
      assert (h.0, h.1) in db.holds;
    }
  }

  /** A product role of the team is backed by a product and a member of the team. */
  lemma ProductRolesOfTeam(db: Db, t: TeamId)
    requires RowsOk(db)
    ensures forall k :: k in db.productRoles ==> (k.0, k.2) in db.access
    ensures forall k :: k in db.productRoles ==>
      exists m :: m in db.members && db.members[m].team == k.0 && db.members[m].user == k.1
  {
    hide MembersUnique, Mirror, HoldsOk;
    forall k | k in db.productRoles
      ensures (k.0, k.2) in db.access && exists m :: m in db.members && db.members[m].team == k.0 && db.members[m].user == k.1
    {
      assert (k.0, k.1, k.2) in db.productRoles;
      assert HasRow(db.members, k.0, k.1);
    }
  }

  lemma DeleteTeamTables(db: Db, t: TeamId)
    requires RowsOk(db) && t in db.teams
    ensures var d := DeleteTeam(db, t).0;
      && RowsOk(d)
      && d.teams == db.teams - {t} && d.users == db.users && d.orgs == db.orgs && d.products == db.products && d.audited == db.audited
      && d.members == (map m | m in db.members && db.members[m].team != t :: db.members[m])
      && d.roles == (map r | r in db.roles && db.roles[r].team != t :: db.roles[r])
      && d.access == (set a | a in db.access && a.0 != t)
  {
    hide MembersUnique, Mirror, HoldsOk, ProductRolesOk;
    var ms := set m | m in db.members && db.members[m].team == t;
    var d1 := DropMembers(db, ms);
    DropMembersKeeps(db, ms);
    var rs := set r | r in d1.roles && d1.roles[r].team == t;
    var d2 := DropRoles(d1, rs);
    DropRolesKeeps(d1, rs);
    DropAccessKeeps(d2, set a | a in d2.access && a.0 == t);
  }

  lemma DeleteTeamHolds(db: Db, t: TeamId)
    requires RowsOk(db) && t in db.teams
    ensures forall h :: h in DeleteTeam(db, t).0.holds <==> h in db.holds && h.1 in db.members && db.members[h.1].team != t
  {
    hide RowsOk;
    AssignmentsOfTeam(db, t);
  }

  lemma DeleteTeamProductRoles(db: Db, t: TeamId)
    requires RowsOk(db) && t in db.teams
    ensures var d := DeleteTeam(db, t).0;
      && (forall k :: k in d.productRoles <==> k in db.productRoles && k.0 != t)
      && (forall k :: k in d.productRoles ==> d.productRoles[k] == db.productRoles[k])
  {
    hide RowsOk;
    ProductRolesOfTeam(db, t);
  }

  /** The cascade of a team's deletion leaves exactly the other teams' rows, in every table. */
  lemma DeleteTeamRows(db: Db, t: TeamId)
    requires RowsOk(db) && t in db.teams
    ensures var d := DeleteTeam(db, t).0;
      && RowsOk(d)
      && d.teams == db.teams - {t} && d.users == db.users && d.orgs == db.orgs && d.products == db.products && d.audited == db.audited
      && d.members == (map m | m in db.members && db.members[m].team != t :: db.members[m])
      && d.roles == (map r | r in db.roles && db.roles[r].team != t :: db.roles[r])
      && d.access == (set a | a in db.access && a.0 != t)
      && (forall h :: h in d.holds <==> h in db.holds && h.1 in d.members)
      && (forall k :: k in d.productRoles <==> k in db.productRoles && k.0 != t)
      && (forall k :: k in d.productRoles ==> d.productRoles[k] == db.productRoles[k])
  {
    hide RowsOk, DeleteTeam;
    DeleteTeamTables(db, t);
    DeleteTeamHolds(db, t);
    DeleteTeamProductRoles(db, t);
  }

  lemma DeleteTeamKeeps(db: Db, t: TeamId)
    requires Inv(db)
    ensures Inv(DeleteTeam(db, t).0)
  {
    hide SlugsOk, MembersUnique, RolesOk, AllPresent, Mirror, HoldsOk, ProductRolesOk, DropMembers, DropRoles, DropAccess;
    if t in db.teams {
      DeleteTeamRows(db, t);
      var d := DeleteTeam(db, t).0;
      assert d.teams.Keys == db.teams.Keys - {t};
      SlugsOkSame(db.teams, d.teams);
      RoleTeams(db);
      RolesOkSub(db.roles, d.roles, db.teams.Keys, d.teams.Keys);
      AllPresentKept(db.roles, d.roles, db.teams.Keys, d.teams.Keys);
    }
  }

  lemma RoleTeams(db: Db)
    requires Inv(db)
    ensures forall r :: r in db.roles ==> db.roles[r].team in db.teams
  {
  }

  lemma RemovalKeeps(db: Db, gone: set<MemberId>)
    requires Inv(db)
    ensures Inv(DropMembers(db, gone))
  {
    hide SlugsOk, MembersUnique, RolesOk, AllPresent, Mirror, HoldsOk, ProductRolesOk;
    DropMembersKeeps(db, gone);
  }

  lemma DeleteUserKeeps(db: Db, u: UserId)
    requires Inv(db)
    ensures Inv(DeleteUser(db, u).0)
  {
    hide SlugsOk, MembersUnique, RolesOk, AllPresent, Mirror, HoldsOk, ProductRolesOk;
    DropMembersKeeps(db, set m | m in db.members && db.members[m].user == u);
  }

  lemma DeleteRoleKeeps(db: Db, t: TeamId, r: RoleId)
    requires Inv(db)
    ensures Inv(DeleteRole(db, t, r).0)
  {
    hide SlugsOk, MembersUnique, RolesOk, AllPresent, Mirror, HoldsOk, ProductRolesOk;
    var d := DeleteRole(db, t, r).0;
    if d != db {
      DropRolesKeeps(db, {r});
      RoleTeams(db);
      RolesOkSub(db.roles, d.roles, db.teams.Keys, d.teams.Keys);
      AllPresentKept(db.roles, d.roles, db.teams.Keys, d.teams.Keys);
    }
  }

  lemma DisableProductKeeps(db: Db, t: TeamId, p: Product)
    requires Inv(db)
    ensures Inv(DisableProduct(db, t, p).0)
  {
    hide SlugsOk, MembersUnique, RolesOk, AllPresent, Mirror, HoldsOk, ProductRolesOk;
    DropAccessKeeps(db, {(t, p)});
  }

  // ── Membership ────────────────────────────────────────────────────────────

  /** A row set to a status that is not active, with no assignment touched, when it held none. */
  lemma MirrorSetInvited(holds: set<(RoleId, MemberId)>, rs: map<RoleId, Role>, ms: map<MemberId, Member>, m: MemberId, x: Member)
    requires HoldsOk(holds, rs, ms) && Mirror(holds, rs, ms) && x.status.Invited?
    requires m in ms ==> ms[m].team == x.team && ms[m].status.Invited?
    ensures HoldsOk(holds, rs, ms[m := x]) && Mirror(holds, rs, ms[m := x])
  {
  }

  lemma InviteKeeps(db: Db, t: TeamId, u: UserId, inviter: UserId, token: string, expires: nat, id: MemberId)
    requires Inv(db)
    ensures Inv(InviteMember(db, t, u, inviter, token, expires, id).0)
  {
    hide SlugsOk, MembersUnique, RolesOk, AllPresent, Mirror, HoldsOk, ProductRolesOk;
    var d := InviteMember(db, t, u, inviter, token, expires, id).0;
    if d != db { MemberSetInvited(db, id, d.members[id]); }
  }

  lemma MemberSetInvited(db: Db, m: MemberId, x: Member)
    requires Inv(db)
    requires x.status.Invited? && x.team in db.teams && x.user in db.users
    requires if m in db.members then db.members[m].team == x.team && db.members[m].user == x.user && db.members[m].status.Invited?
             else !HasRow(db.members, x.team, x.user)
    requires forall n :: n in db.members && n != m ==> db.members[n].token != x.token
    ensures Inv(db.(members := db.members[m := x]))
  {
    hide SlugsOk, MembersUnique, RolesOk, AllPresent, Mirror, HoldsOk, ProductRolesOk;
    MembersUniqueSet(db.members, m, x);
    MirrorSetInvited(db.holds, db.roles, db.members, m, x);
    ProductRolesOkGrows(db.productRoles, db.access, db.members, db.members[m := x]);
  }

  lemma RefreshInviteKeeps(db: Db, t: TeamId, u: UserId, token: string, expires: nat)
    requires Inv(db)
    ensures Inv(RefreshInvite(db, t, u, token, expires).0)
  {
    hide SlugsOk, RolesOk, AllPresent, Mirror, HoldsOk, ProductRolesOk;
    var d := RefreshInvite(db, t, u, token, expires).0;
    if d != db {
      var m := RefreshedRow(db.members, t, u);
      var x := db.members[m].(token := Some(token), tokenExpires := expires);
      assert d.members == db.members[m := x];
      assert d == db.(members := db.members[m := x]);
      MemberSetInvited(db, m, x);
    }
  }

  /** The single row a refresh rewrites. */
  lemma RefreshedRow(ms: map<MemberId, Member>, t: TeamId, u: UserId) returns (m: MemberId)
    requires MembersUnique(ms) && HasInvitedRow(ms, t, u)
    ensures m in ms && ms[m].team == t && ms[m].user == u && ms[m].status.Invited?
    ensures forall n :: n in ms && ms[n].team == t && ms[n].user == u ==> n == m
  {
    m :| m in ms && ms[m].team == t && ms[m].user == u && ms[m].status.Invited?;
  }

  /** Setting one row active and then giving it the team's "All" role, whatever the row held before. */
  lemma ActivationKeeps(db: Db, m: MemberId, x: Member)
    requires Inv(db)
    requires x.status.Active? && x.team in db.teams && x.user in db.users
    requires if m in db.members then db.members[m].team == x.team && db.members[m].user == x.user
             else !HasRow(db.members, x.team, x.user)
    requires x.token.Some? ==> m in db.members && db.members[m].token == x.token
    ensures Inv(AssignAll(db.(members := db.members[m := x]), m))
  {
    hide SlugsOk, MembersUnique, RolesOk, AllPresent, Mirror, HoldsOk, ProductRolesOk;
    if x.token.Some? { TokenIsAlone(db.members, m); }
    MembersUniqueSet(db.members, m, x);
    ActivationMirrors(db.holds, db.roles, db.members, m, x);
    ProductRolesOkGrows(db.productRoles, db.access, db.members, db.members[m := x]);
  }

  lemma ActivationMirrors(holds: set<(RoleId, MemberId)>, rs: map<RoleId, Role>, ms: map<MemberId, Member>, m: MemberId, x: Member)
    requires HoldsOk(holds, rs, ms) && Mirror(holds, rs, ms) && x.status.Active?
    requires m in ms ==> ms[m].team == x.team
    ensures var all := set r | r in rs && rs[r].team == x.team && rs[r].isAll :: (r, m);
            HoldsOk(holds + all, rs, ms[m := x]) && Mirror(holds + all, rs, ms[m := x])
  {
  }

  lemma AddActiveKeeps(db: Db, t: TeamId, u: UserId, id: MemberId)
    requires Inv(db)
    ensures Inv(AddActive(db, t, u, id).0)
  {
    hide SlugsOk, MembersUnique, RolesOk, AllPresent, Mirror, HoldsOk, ProductRolesOk, TeamsOk;
    if HasRow(db.members, t, u) {
      var m := RowOf(db.members, t, u);
      ActivationKeeps(db, m, db.members[m].(status := Active));
    } else if id !in db.members && t in db.teams && u in db.users {
      ActivationKeeps(db, id, Member(t, u, Active, None, 0));
    }
  }

  lemma AcceptKeeps(db: Db, m: MemberId)
    requires Inv(db)
    ensures Inv(AcceptInvitation(db, m))
  {
    hide SlugsOk, MembersUnique, RolesOk, AllPresent, Mirror, HoldsOk, ProductRolesOk, TeamsOk;
    if m in db.members {
      ActivationKeeps(db, m, db.members[m].(status := Active, token := None, tokenExpires := 0));
    }
  }

  // ── Roles and products ────────────────────────────────────────────────────

  /** A role row written with its team and its flag as they were, or a fresh row without the flag. */
  lemma RoleSetKeeps(db: Db, r: RoleId, x: Role)
    requires Inv(db) && x.team in db.teams
    requires if r in db.roles then x.team == db.roles[r].team && x.isAll == db.roles[r].isAll else !x.isAll
    requires forall s :: s in db.roles && s != r && db.roles[s].team == x.team ==> db.roles[s].name != x.name
    ensures Inv(db.(roles := db.roles[r := x]))
  {
    hide SlugsOk, MembersUnique, AllPresent, ProductRolesOk, TeamsOk, OrgsOk;
    AllPresentKept(db.roles, db.roles[r := x], db.teams.Keys, db.teams.Keys);
  }

  lemma CreateRoleKeeps(db: Db, t: TeamId, name: string, id: RoleId)
    requires Inv(db)
    ensures Inv(CreateRole(db, t, name, id).0)
  {
    hide SlugsOk, MembersUnique, RolesOk, AllPresent, Mirror, HoldsOk, ProductRolesOk;
    var d := CreateRole(db, t, name, id).0;
    if d != db { RoleSetKeeps(db, id, d.roles[id]); }
  }

  lemma UpdateRoleKeeps(db: Db, t: TeamId, r: RoleId, name: Option<string>)
    requires Inv(db)
    ensures Inv(UpdateRole(db, t, r, name).0)
  {
    hide SlugsOk, MembersUnique, AllPresent, Mirror, HoldsOk, ProductRolesOk;
    var d := UpdateRole(db, t, r, name).0;
    if d != db { RoleSetKeeps(db, r, d.roles[r]); }
  }

  lemma AssignRoleKeeps(db: Db, t: TeamId, u: UserId, r: RoleId)
    requires Inv(db)
    ensures Inv(AssignRole(db, t, u, r).0)
  {
    hide SlugsOk, MembersUnique, RolesOk, AllPresent, ProductRolesOk;
  }

  lemma UnassignRoleKeeps(db: Db, t: TeamId, u: UserId, r: RoleId)
    requires Inv(db)
    ensures Inv(UnassignRole(db, t, u, r).0)
  {
    hide SlugsOk, MembersUnique, RolesOk, AllPresent, ProductRolesOk;
  }

  lemma AssignProductRoleKeeps(db: Db, t: TeamId, u: UserId, p: Product, role: string, admin: UserId, text: string)
    requires Inv(db)
    ensures Inv(AssignProductRole(db, t, u, p, role, admin, text).0)
  {
    hide SlugsOk, MembersUnique, RolesOk, AllPresent, Mirror, HoldsOk;
  }

  lemma ProductStatementsKeep(db: Db, t: TeamId, u: UserId, p: Product, admin: UserId)
    requires Inv(db)
    ensures Inv(EnableProduct(db, t, p, admin).0) && Inv(RevokeProductRole(db, t, u, p).0)
  {
    hide SlugsOk, MembersUnique, RolesOk, AllPresent, Mirror, HoldsOk;
  }

  lemma AddUserKeeps(db: Db, u: UserId)
    requires Inv(db)
    ensures Inv(db.(users := db.users + {u}))
  {
    hide SlugsOk, MembersUnique, RolesOk, AllPresent, Mirror, HoldsOk, ProductRolesOk;
  }

  lemma AuditKeeps(db: Db, u: UserId)
    requires Inv(db)
    ensures Inv(AuditUser(db, u))
  {
    hide TeamsOk, MembersOk, SlugsOk, MembersUnique, RolesOk, AllPresent, Mirror, HoldsOk, ProductRolesOk;
  }

  // ── Which tables a statement leaves alone ─────────────────────────────────

  predicate TouchesTeams(op: Op) {
    op.OpCreateTeam? || op.OpUpdateTeam? || op.OpAdminUpdateTeam? || op.OpDeleteTeam? || op.OpDeleteOrg?
  }

  predicate TouchesMembers(op: Op) {
    op.OpCreateTeam? || op.OpDeleteTeam? || op.OpDeleteUser? || op.OpInvite? || op.OpAddActive? || op.OpAccept? || op.OpDecline? ||
    op.OpRemove? || op.OpRefreshInvite?
  }

  lemma OthersKeepTeams(db: Db, op: Op)
    requires !TouchesTeams(op)
    ensures Apply(db, op).teams == db.teams
  {
    hide HasRow, TokenTaken, TokenTakenElsewhere, NameTaken, HasInvitedRow, RoleIn, ActiveRows, OrgExists, ForeignKeyError;
  }

  lemma OthersKeepMembers(db: Db, op: Op)
    requires !TouchesMembers(op)
    ensures Apply(db, op).members == db.members
  {
    hide HasRow, NameTaken, RoleIn, ActiveRows, OrgExists, CheckSlug, Unflag, Patched, ForeignKeyError;
  }

  // ── Every statement, every run ────────────────────────────────────────────

  lemma ApplyKeepsInv(db: Db, op: Op)
    requires Inv(db)
    ensures Inv(Apply(db, op))
  {
    hide Inv, CreateTeam, UpdateTeam, AdminUpdateTeam, DeleteTeam, EnsureOrg, DeleteOrg, DeleteUser, InviteMember, AddActive,
      AuditUser, AcceptInvitation, DropMembers, RefreshInvite, CreateRole, UpdateRole, DeleteRole, AssignRole, UnassignRole,
      EnableProduct, DisableProduct, AssignProductRole, RevokeProductRole;
    match op
    case OpCreateTeam(n, o, g, ids) => CreateTeamKeeps(db, n, o, g, ids);
    case OpUpdateTeam(t, s, l) => UpdateTeamKeeps(db, t, s, l);
    case OpAdminUpdateTeam(t, p) => AdminUpdateTeamKeeps(db, t, p);
    case OpDeleteTeam(t) => DeleteTeamKeeps(db, t);
    case OpEnsureOrg(s, o) => EnsureOrgKeeps(db, s, o);
    case OpDeleteOrg(o) => DeleteOrgKeeps(db, o);
    case OpAddUser(u) => AddUserKeeps(db, u);
    case OpDeleteUser(u) => DeleteUserKeeps(db, u);
    case OpAudit(u) => AuditKeeps(db, u);
    case OpInvite(t, u, i, k, e, m) => InviteKeeps(db, t, u, i, k, e, m);
    case OpAddActive(t, u, m) => AddActiveKeeps(db, t, u, m);
    case OpAccept(m) => AcceptKeeps(db, m);
    case OpDecline(m) => RemovalKeeps(db, {m});
    case OpRemove(t, u) => RemovalKeeps(db, set m | m in db.members && db.members[m].team == t && db.members[m].user == u);
    case OpRefreshInvite(t, u, k, e) => RefreshInviteKeeps(db, t, u, k, e);
    case OpCreateRole(t, n, r) => CreateRoleKeeps(db, t, n, r);
    case OpUpdateRole(t, r, n) => UpdateRoleKeeps(db, t, r, n);
    case OpDeleteRole(t, r) => DeleteRoleKeeps(db, t, r);
    case OpAssignRole(t, u, r) => AssignRoleKeeps(db, t, u, r);
    case OpUnassignRole(t, u, r) => UnassignRoleKeeps(db, t, u, r);
    case OpEnableProduct(t, p, a) => ProductStatementsKeep(db, t, 0, p, a);
    case OpDisableProduct(t, p) => DisableProductKeeps(db, t, p);
    case OpAssignProductRole(t, u, p, x, a) => AssignProductRoleKeeps(db, t, u, p, x, a, "");
    case OpRevokeProductRole(t, u, p) => ProductStatementsKeep(db, t, u, p, 0);
  }

  lemma {:induction false} ReplayKeepsInv(db: Db, ops: seq<Op>)
    requires Inv(db)
    ensures Inv(Replay(db, ops))
    decreases |ops|
  {
    if ops != [] {
      ApplyKeepsInv(db, ops[0]);
      ReplayKeepsInv(Apply(db, ops[0]), ops[1..]);
    }
  }

  /** The schema right after the migrations, with a given product catalogue. */
  function Fresh(products: set<Product>): Db {
    Db({}, map[], products, map[], map[], map[], {}, {}, map[], {})
  }

  lemma ReachableInv(products: set<Product>, ops: seq<Op>)
    ensures Inv(Replay(Fresh(products), ops))
  {
    ReplayKeepsInv(Fresh(products), ops);
  }

  function Holders(db: Db, r: RoleId): set<MemberId> { set p | p in db.holds && p.0 == r :: p.1 }

  function ActiveMembers(db: Db, t: TeamId): set<MemberId> {
    set m | m in db.members && db.members[m].team == t && db.members[m].status.Active?
  }

  /** In every reachable state each team has exactly one "All" role, held by exactly its active members. */
  lemma AllRoleMirrorsMembership(products: set<Product>, ops: seq<Op>, t: TeamId) returns (r: RoleId)
    requires t in Replay(Fresh(products), ops).teams
    ensures var db := Replay(Fresh(products), ops);
            && IsAllOf(db.roles, r, t)
            && (forall s :: IsAllOf(db.roles, s, t) ==> s == r)
            && Holders(db, r) == ActiveMembers(db, t)
  {
    hide Replay, SlugsOk, MembersUnique, ProductRolesOk, TeamsOk;
    ReachableInv(products, ops);
    var db := Replay(Fresh(products), ops);
    r :| IsAllOf(db.roles, r, t);
    forall m ensures m in Holders(db, r) <==> m in ActiveMembers(db, t) {
      if m in Holders(db, r) { assert (r, m) in db.holds; }
      if m in ActiveMembers(db, t) { assert (r, m).0 == r && (r, m).1 == m; }
    }
  }

  /** Every stored product role names a product enabled for its team and a membership row of that team. */
  lemma ProductRolesSupported(products: set<Product>, ops: seq<Op>, t: TeamId, u: UserId, p: Product)
    requires (t, u, p) in Replay(Fresh(products), ops).productRoles
    ensures var db := Replay(Fresh(products), ops);
            (t, p) in db.access && HasRow(db.members, t, u) && t in db.teams && p in db.products
  {
    hide Replay, SlugsOk, MembersUnique, RolesOk, Mirror, HoldsOk, TeamsOk;
    ReachableInv(products, ops);
  }

  /** Disabling a product deletes exactly the product roles that depended on it. */
  lemma DisableDeletesDependents(db: Db, t: TeamId, p: Product)
    requires Inv(db) && (t, p) in db.access
    ensures var d := DisableProduct(db, t, p).0;
            && d == db.(access := d.access, productRoles := d.productRoles)
            && (forall a :: a in d.access <==> a in db.access && a != (t, p))
            && (forall k :: k in d.productRoles <==> k in db.productRoles && !(k.0 == t && k.2 == p))
            && (forall k :: k in d.productRoles ==> d.productRoles[k] == db.productRoles[k])
  {
    hide Inv;
  }

  /** Removing a member deletes exactly that row, its role assignments and its product roles in that team. */
  lemma RemoveDeletesDependents(db: Db, t: TeamId, u: UserId) returns (m: MemberId)
    requires Inv(db) && HasRow(db.members, t, u)
    ensures m in db.members && db.members[m].team == t && db.members[m].user == u
    ensures var d := RemoveMember(db, t, u).0;
            && d == db.(members := db.members - {m}, holds := d.holds, productRoles := d.productRoles)
            && (forall h :: h in d.holds <==> h in db.holds && h.1 != m)
            && (forall k :: k in d.productRoles <==> k in db.productRoles && !(k.0 == t && k.1 == u))
            && (forall k :: k in d.productRoles ==> d.productRoles[k] == db.productRoles[k])
            && !HasRow(d.members, t, u)
  {
    hide SlugsOk, RolesOk, AllPresent, Mirror, HoldsOk, ProductRolesOk, TeamsOk;
    m := RowOf(db.members, t, u);
    var gone := set k | k in db.members && db.members[k].team == t && db.members[k].user == u;
    assert gone == {m};
    assert (set k | k in gone && k in db.members :: (db.members[k].team, db.members[k].user)) == {(t, u)};
  }
}
