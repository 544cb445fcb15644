// The team statements performed in place, each against its specification in
// TeamTables.dfy.  Statements of one transaction run in order; a violation part
// way through restores the rows the transaction had already written.

module TeamStore {
  import opened Prelude
  import opened TeamTables
  import I = TeamInvariants
  import Slug

  class Store {
    var users: set<UserId>
    var orgs: map<OrgId, string>
    var products: set<Product>
    var teams: map<TeamId, Team>
    var members: map<MemberId, Member>
    var roles: map<RoleId, Role>
    var holds: set<(RoleId, MemberId)>
    var access: set<(TeamId, Product)>
    var productRoles: map<(TeamId, UserId, Product), string>
    var audited: set<UserId>

    function Rows(): Db
      reads this
    {
      Db(users, orgs, products, teams, members, roles, holds, access, productRoles, audited)
    }

    constructor (db: Db)
      ensures Rows() == db
    {
      users, orgs, products, teams, members := db.users, db.orgs, db.products, db.teams, db.members;
      roles, holds, access, productRoles, audited := db.roles, db.holds, db.access, db.productRoles, db.audited;
    }

    // ── Teams ───────────────────────────────────────────────────────────────

    method CreateTeam(lowered: string, owner: UserId, org: Option<OrgId>, ids: NewIds) returns (r: Result<TeamId>)
      requires Slug.NoCapitals(lowered) && |Slugs(teams)| + 2 <= Slug.I32_MAX
      modifies this
      ensures (Rows(), r) == TeamTables.CreateTeam(old(Rows()), lowered, owner, org, ids)
    {
      var slug, _ := Slug.UniqueTeamSlug(lowered, Slugs(teams));
      var teamsBefore, membersBefore := teams, members;
      if ids.team in teams || owner !in users || (org.Some? && org.value !in orgs) {
        return Err(Database);
      }
      teams := teams[ids.team := Team(slug, owner, owner, org, false)];
      if ids.member in members {
        teams := teamsBefore;
        return Err(Database);
      }
      members := members[ids.member := Member(ids.team, owner, Active, None, 0)];
      if ids.role in roles {
        teams, members := teamsBefore, membersBefore;
        return Err(Database);
      }
      roles := roles[ids.role := Role(ids.team, "All", true)];
      holds := holds + {(ids.role, ids.member)};
      return Ok(ids.team);
    }

    method UpdateTeam(t: TeamId, slug: Option<string>, leader: Option<UserId>) returns (r: Result<()>)
      modifies this`teams
      ensures (Rows(), r) == TeamTables.UpdateTeam(old(Rows()), t, slug, leader)
    {
      hide Slug.ValidSlug;
      r := CheckSlug(Rows(), slug, t);
      if r.Err? { return; }
      if t !in teams { return Err(NotFound); }
      if leader.Some? && leader.value !in users { return Err(Database); }
      teams := teams[t := teams[t].(slug := Coalesce(slug, teams[t].slug), leader := Coalesce(leader, teams[t].leader))];
    }

    /** Unset the organization's current Support team, then write the row. */
    method AdminUpdateTeam(t: TeamId, p: AdminPatch) returns (r: Result<()>)
      modifies this`teams
      ensures (Rows(), r) == TeamTables.AdminUpdateTeam(old(Rows()), t, p)
    {
      hide Slug.ValidSlug;
      r := CheckSlug(Rows(), p.slug, t);
      if r.Err? { return; }
      if p.org.Some? && p.org.value.Some? && p.org.value.value !in orgs { return Err(Validation); }
      var before := teams;
      if p.support == Some(true) {
        if p.org.None? && t !in teams { return Err(Database); }
        var org := if p.org.Some? then p.org.value else teams[t].org;
        if org.None? { return Err(Validation); }
        teams := map k | k in teams :: if teams[k].support && teams[k].org == org then teams[k].(support := false) else teams[k];
      }
      if t !in teams {
        teams := before;
        return Err(NotFound);
      }
      if (p.owner.Some? && p.owner.value !in users) || (p.leader.Some? && p.leader.value !in users) {
        teams := before;
        return Err(Database);
      }
      teams := teams[t := Patched(teams[t], p)];
    }

    /** ON DELETE CASCADE, table by table. */
    method DeleteTeam(t: TeamId) returns (r: Result<()>)
      modifies this
      ensures (Rows(), r) == TeamTables.DeleteTeam(old(Rows()), t)
    {
      if t !in teams { return Err(NotFound); }
      DeleteMemberRows(set m | m in members && members[m].team == t);
      DeleteRoleRows(set k | k in roles && roles[k].team == t);
      DeleteAccessRows(set a | a in access && a.0 == t);
      teams := teams - {t};
      return Ok(());
    }

    method DeleteMemberRows(gone: set<MemberId>)
      modifies this`members, this`holds, this`productRoles
      ensures Rows() == DropMembers(old(Rows()), gone)
    {
      var keys := set m | m in gone && m in members :: (members[m].team, members[m].user);
      productRoles := map k | k in productRoles && (k.0, k.1) !in keys :: productRoles[k];
      holds := set p | p in holds && p.1 !in gone;
      members := members - gone;
    }

    method DeleteRoleRows(gone: set<RoleId>)
      modifies this`roles, this`holds
      ensures Rows() == DropRoles(old(Rows()), gone)
    {
      holds := set p | p in holds && p.0 !in gone;
      roles := roles - gone;
    }

    method DeleteAccessRows(gone: set<(TeamId, Product)>)
      modifies this`access, this`productRoles
      ensures Rows() == DropAccess(old(Rows()), gone)
    {
      productRoles := map k | k in productRoles && (k.0, k.2) !in gone :: productRoles[k];
      access := access - gone;
    }

    // ── Members ─────────────────────────────────────────────────────────────

    method InviteMember(t: TeamId, u: UserId, inviter: UserId, token: string, expires: nat, id: MemberId) returns (r: Result<()>)
      modifies this`members
      ensures (Rows(), r) == TeamTables.InviteMember(old(Rows()), t, u, inviter, token, expires, id)
    {
      if id in members || HasRow(members, t, u) || TokenTaken(members, token) { return Err(Conflict); }
      if t !in teams || u !in users || inviter !in users { return Err(Database); }
      members := members[id := Member(t, u, Invited, Some(token), expires)];
      return Ok(());
    }

    method AssignAllRole(m: MemberId)
      modifies this`holds
      ensures Rows() == AssignAll(old(Rows()), m)
    {
      if m in members && members[m].status.Active? {
        holds := holds + (set k | k in roles && roles[k].team == members[m].team && roles[k].isAll :: (k, m));
      }
    }

    method AddMemberActive(t: TeamId, u: UserId, id: MemberId) returns (r: Result<()>)
      requires I.MembersUnique(members)
      modifies this`members, this`holds
      ensures (Rows(), r) == AddActive(old(Rows()), t, u, id)
    {
      var row := id;
      if HasRow(members, t, u) {
        row :| row in members && members[row].team == t && members[row].user == u;
        assert row == RowOf(members, t, u);
        members := members[row := members[row].(status := Active)];
      } else {
        if id in members || t !in teams || u !in users { return Err(Database); }
        members := members[id := Member(t, u, Active, None, 0)];
      }
      AssignAllRole(row);
      return Ok(());
    }

    method AcceptInvitation(m: MemberId)
      modifies this`members, this`holds
      ensures Rows() == TeamTables.AcceptInvitation(old(Rows()), m)
    {
      if m in members {
        members := members[m := members[m].(status := Active, token := None, tokenExpires := 0)];
      }
      AssignAllRole(m);
    }

    method RemoveMember(t: TeamId, u: UserId) returns (r: Result<()>)
      modifies this`members, this`holds, this`productRoles
      ensures (Rows(), r) == TeamTables.RemoveMember(old(Rows()), t, u)
    {
      if !HasRow(members, t, u) { return Err(NotFound); }
      DeleteMemberRows(set m | m in members && members[m].team == t && members[m].user == u);
      return Ok(());
    }

    method RefreshInvite(t: TeamId, u: UserId, token: string, expires: nat) returns (r: Result<()>)
      modifies this`members
      ensures (Rows(), r) == TeamTables.RefreshInvite(old(Rows()), t, u, token, expires)
    {
      if !HasInvitedRow(members, t, u) { return Err(NotFound); }
      if TokenTakenElsewhere(members, token, t, u) { return Err(Database); }
      members := map m | m in members ::
        if members[m].team == t && members[m].user == u && members[m].status.Invited?
        then members[m].(token := Some(token), tokenExpires := expires) else members[m];
      assert members == TeamTables.RefreshInvite(old(Rows()), t, u, token, expires).0.members;
      return Ok(());
    }

    // ── Roles ───────────────────────────────────────────────────────────────

    method CreateRole(t: TeamId, name: string, id: RoleId) returns (r: Result<()>)
      modifies this`roles
      ensures (Rows(), r) == TeamTables.CreateRole(old(Rows()), t, name, id)
    {
      if id in roles || NameTaken(roles, t, name) { return Err(Conflict); }
      if t !in teams { return Err(Database); }
      roles := roles[id := Role(t, name, false)];
      return Ok(());
    }

    method UpdateRole(t: TeamId, k: RoleId, name: Option<string>) returns (r: Result<()>)
      modifies this`roles
      ensures (Rows(), r) == TeamTables.UpdateRole(old(Rows()), t, k, name)
    {
      if k !in roles || roles[k].team != t { return Err(NotFound); }
      if name.Some? && name.value != roles[k].name && NameTaken(roles, t, name.value) { return Err(Conflict); }
      roles := roles[k := roles[k].(name := Coalesce(name, roles[k].name))];
      return Ok(());
    }

    method DeleteRole(t: TeamId, k: RoleId) returns (r: Result<()>)
      modifies this`roles, this`holds
      ensures (Rows(), r) == TeamTables.DeleteRole(old(Rows()), t, k)
    {
      if k !in roles || roles[k].team != t { return Err(NotFound); }
      if roles[k].isAll { return Err(Validation); }
      DeleteRoleRows({k});
      return Ok(());
    }

    method AssignRole(t: TeamId, u: UserId, k: RoleId) returns (r: Result<()>)
      modifies this`holds
      ensures (Rows(), r) == TeamTables.AssignRole(old(Rows()), t, u, k)
    {
      var rows := ActiveRows(members, t, u);
      if rows == {} { return Err(Validation); }
      if exists m :: m in rows && (k, m) in holds { return Err(Conflict); }
      if k !in roles || roles[k].team != t { return Err(NotFound); }
      holds := holds + (set m | m in rows :: (k, m));
      return Ok(());
    }

    method UnassignRole(t: TeamId, u: UserId, k: RoleId) returns (r: Result<()>)
      modifies this`holds
      ensures (Rows(), r) == TeamTables.UnassignRole(old(Rows()), t, u, k)
    {
      if k !in roles || roles[k].team != t { return Err(NotFound); }
      if roles[k].isAll { return Err(Validation); }
      var gone := set p | p in holds && p.0 == k && p.1 in members && members[p.1].team == t && members[p.1].user == u;
      if gone == {} { return Err(NotFound); }
      holds := holds - gone;
      return Ok(());
    }

    // ── Products ────────────────────────────────────────────────────────────

    method EnableProduct(t: TeamId, p: Product, admin: UserId) returns (r: Result<()>)
      modifies this`access
      ensures (Rows(), r) == TeamTables.EnableProduct(old(Rows()), t, p, admin)
    {
      if (t, p) !in access {
        if t !in teams || p !in products || admin !in users { return Err(Database); }
        access := access + {(t, p)};
      }
      return Ok(());
    }

    method DisableProduct(t: TeamId, p: Product) returns (r: Result<()>)
      modifies this`access, this`productRoles
      ensures (Rows(), r) == TeamTables.DisableProduct(old(Rows()), t, p)
    {
      if (t, p) !in access { return Err(NotFound); }
      DeleteAccessRows({(t, p)});
      return Ok(());
    }

    method AssignProductRole(t: TeamId, u: UserId, p: Product, role: string, admin: UserId, text: string) returns (r: Result<()>)
      modifies this`productRoles
      ensures (Rows(), r) == TeamTables.AssignProductRole(old(Rows()), t, u, p, role, admin, text)
    {
      if (t, p) !in access || !HasRow(members, t, u) || admin !in users { return Err(ForeignKeyError(text)); }
      productRoles := productRoles[(t, u, p) := role];
      return Ok(());
    }

    method RevokeProductRole(t: TeamId, u: UserId, p: Product) returns (r: Result<()>)
      modifies this`productRoles
      ensures (Rows(), r) == TeamTables.RevokeProductRole(old(Rows()), t, u, p)
    {
      if (t, u, p) !in productRoles { return Err(NotFound); }
      productRoles := productRoles - {(t, u, p)};
      return Ok(());
    }

    // ── The shared organization ─────────────────────────────────────────────

    method EnsureOrganization(slug: string, id: OrgId) returns (r: Result<OrgId>)
      requires I.OrgsOk(orgs)
      modifies this`orgs
      ensures (Rows(), r) == EnsureOrg(old(Rows()), slug, id)
    {
      if OrgExists(orgs, slug) {
        var o :| o in orgs && orgs[o] == slug;
        assert o == OrgBySlug(orgs, slug);
        return Ok(o);
      }
      if id in orgs { return Err(Database); }
      orgs := orgs[id := slug];
      return Ok(id);
    }
  }
}
