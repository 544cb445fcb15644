// The team tables (migrations 012, 013, 014, 025, 031, 032) and the statements
// of src/db/mod.rs on them, with the users the audit log (021) names, as far as
// these can be deleted.  Each function is one statement or one transaction;
// ids are the drawn `gen_random_uuid()` values, so a repeated id is a primary-key
// violation rather than something assumed away.

module TeamTables {
  import opened Prelude
  import Slug

  type UserId = nat
  type TeamId = nat
  type MemberId = nat
  type RoleId = nat
  type OrgId = nat
  type Product = string

  datatype Status = Invited | Active | Inactive

  datatype Team = Team(slug: string, owner: UserId, leader: UserId, org: Option<OrgId>, support: bool)

  datatype Member = Member(team: TeamId, user: UserId, status: Status, token: Option<string>, tokenExpires: nat)

  datatype Role = Role(team: TeamId, name: string, isAll: bool)

  /** `holds`: the (role, member) pairs of team_member_roles; `audited`: the users some audit row names. */
  datatype Db = Db(users: set<UserId>,
                   orgs: map<OrgId, string>,
                   products: set<Product>,
                   teams: map<TeamId, Team>,
                   members: map<MemberId, Member>,
                   roles: map<RoleId, Role>,
                   holds: set<(RoleId, MemberId)>,
                   access: set<(TeamId, Product)>,
                   productRoles: map<(TeamId, UserId, Product), string>,
                   audited: set<UserId>)

  // ── Lookups ───────────────────────────────────────────────────────────────

  predicate HasRow(ms: map<MemberId, Member>, t: TeamId, u: UserId) {
    exists m :: m in ms && ms[m].team == t && ms[m].user == u
  }

  predicate TokenTaken(ms: map<MemberId, Member>, token: string) {
    exists m :: m in ms && ms[m].token == Some(token)
  }

  predicate NameTaken(rs: map<RoleId, Role>, t: TeamId, name: string) {
    exists r :: r in rs && rs[r].team == t && rs[r].name == name
  }

  function Slugs(ts: map<TeamId, Team>): set<string> { set t | t in ts :: ts[t].slug }

  predicate SlugTakenByOther(ts: map<TeamId, Team>, slug: string, t: TeamId) {
    exists k :: k in ts && k != t && ts[k].slug == slug
  }

  // ── Cascades ──────────────────────────────────────────────────────────────

  /** Deleting member rows takes their role assignments and their product roles with them. */
  function DropMembers(db: Db, gone: set<MemberId>): Db {
    var keys := set m | m in gone && m in db.members :: (db.members[m].team, db.members[m].user);
    db.(members := db.members - gone,
        holds := (set p | p in db.holds && p.1 !in gone),
        productRoles := map k | k in db.productRoles && (k.0, k.1) !in keys :: db.productRoles[k])
  }

  function DropRoles(db: Db, gone: set<RoleId>): Db {
    db.(roles := db.roles - gone, holds := (set p | p in db.holds && p.0 !in gone))
  }

  function DropAccess(db: Db, gone: set<(TeamId, Product)>): Db {
    db.(access := db.access - gone,
        productRoles := map k | k in db.productRoles && (k.0, k.2) !in gone :: db.productRoles[k])
  }

  // ── Teams ─────────────────────────────────────────────────────────────────

  datatype NewIds = NewIds(team: TeamId, member: MemberId, role: RoleId)

  /** `create_team`: team, active owner row, "All" role and its assignment, in one transaction. */
  function CreateTeam(db: Db, lowered: string, owner: UserId, org: Option<OrgId>, ids: NewIds): (Db, Result<TeamId>) {
    if ids.team in db.teams || ids.member in db.members || ids.role in db.roles ||
       owner !in db.users || (org.Some? && org.value !in db.orgs)
    then (db, Err(Database))
    else
      (db.(teams := db.teams[ids.team := Team(Slug.UniqueSlug(lowered, Slugs(db.teams)), owner, owner, org, false)],
           members := db.members[ids.member := Member(ids.team, owner, Active, None, 0)],
           roles := db.roles[ids.role := Role(ids.team, "All", true)],
           holds := db.holds + {(ids.role, ids.member)}),
       Ok(ids.team))
  }

  /** `check_slug_available`: format first, then the other teams. */
  function CheckSlug(db: Db, slug: Option<string>, t: TeamId): Result<()> {
    if slug.None? then Ok(())
    else if !Slug.ValidSlug(slug.value) then Err(Validation)
    else if SlugTakenByOther(db.teams, slug.value, t) then Err(Conflict)
    else Ok(())
  }

  function Coalesce<T>(x: Option<T>, old_: T): T { if x.Some? then x.value else old_ }

  function UpdateTeam(db: Db, t: TeamId, slug: Option<string>, leader: Option<UserId>): (Db, Result<()>) {
    var check := CheckSlug(db, slug, t);
    if check.Err? then (db, check)
    else if t !in db.teams then (db, Err(NotFound))
    else if leader.Some? && leader.value !in db.users then (db, Err(Database))
    else
      var x := db.teams[t];
      (db.(teams := db.teams[t := x.(slug := Coalesce(slug, x.slug), leader := Coalesce(leader, x.leader))]), Ok(()))
  }

  datatype AdminPatch = AdminPatch(slug: Option<string>, owner: Option<UserId>, leader: Option<UserId>,
                                   org: Option<Option<OrgId>>, support: Option<bool>)

  /** Clear the flag on every flagged team of one organization. */
  function Unflag(ts: map<TeamId, Team>, org: OrgId): map<TeamId, Team> {
    map t | t in ts :: if ts[t].support && ts[t].org == Some(org) then ts[t].(support := false) else ts[t]
  }

  function Patched(x: Team, p: AdminPatch): Team {
    x.(slug := Coalesce(p.slug, x.slug), owner := Coalesce(p.owner, x.owner), leader := Coalesce(p.leader, x.leader),
       org := Coalesce(p.org, x.org), support := Coalesce(p.support, x.support))
  }

  function AdminUpdateTeam(db: Db, t: TeamId, p: AdminPatch): (Db, Result<()>) {
    var check := CheckSlug(db, p.slug, t);
    if check.Err? then (db, check)
    else if p.org.Some? && p.org.value.Some? && p.org.value.value !in db.orgs then (db, Err(Validation))
    else if t !in db.teams then (db, if p.support == Some(true) && p.org == Some(None) then Err(Validation) else
                                     if p.support == Some(true) && p.org.None? then Err(Database) else Err(NotFound))
    else if p.support == Some(true) && Coalesce(p.org, db.teams[t].org).None? then (db, Err(Validation))
    else if (p.owner.Some? && p.owner.value !in db.users) || (p.leader.Some? && p.leader.value !in db.users)
    then (db, Err(Database))
    else
      var ts := if p.support == Some(true) then Unflag(db.teams, Coalesce(p.org, db.teams[t].org).value) else db.teams;
      (db.(teams := ts[t := Patched(ts[t], p)]), Ok(()))
  }

  function DeleteTeam(db: Db, t: TeamId): (Db, Result<()>) {
    if t !in db.teams then (db, Err(NotFound))
    else
      var d1 := DropMembers(db, set m | m in db.members && db.members[m].team == t);
      var d2 := DropRoles(d1, set r | r in d1.roles && d1.roles[r].team == t);
      var d3 := DropAccess(d2, set a | a in d2.access && a.0 == t);
      (d3.(teams := d3.teams - {t}), Ok(()))
  }

  // ── Organizations and users ───────────────────────────────────────────────

  predicate OrgExists(orgs: map<OrgId, string>, slug: string) { exists o :: o in orgs && orgs[o] == slug }

  ghost function OrgBySlug(orgs: map<OrgId, string>, slug: string): (o: OrgId)
    requires OrgExists(orgs, slug)
    ensures o in orgs && orgs[o] == slug
  {
    var o :| o in orgs && orgs[o] == slug; o
  }

  /** `ensure_organization_by_slug`: the id of the row with that slug, inserted if absent. */
  ghost function EnsureOrg(db: Db, slug: string, id: OrgId): (Db, Result<OrgId>) {
    if OrgExists(db.orgs, slug) then (db, Ok(OrgBySlug(db.orgs, slug)))
    else if id in db.orgs then (db, Err(Database))
    else (db.(orgs := db.orgs[id := slug]), Ok(id))
  }

  /** Teams of a deleted organization become org-less (ON DELETE SET NULL); nothing else about them changes. */
  function DeleteOrg(db: Db, o: OrgId): (Db, Result<()>) {
    if o !in db.orgs then (db, Err(NotFound))
    else (db.(orgs := db.orgs - {o},
              teams := map t | t in db.teams ::
                if db.teams[t].org == Some(o) then db.teams[t].(org := None) else db.teams[t]),
          Ok(()))
  }

  /**
   * Owners and leaders cannot be deleted (ON DELETE RESTRICT), nor can anyone the audit
   * log names (no ON DELETE action); everyone else goes with all their memberships.
   */
  function DeleteUser(db: Db, u: UserId): (Db, Result<()>) {
    if u !in db.users then (db, Err(NotFound))
    else if exists t :: t in db.teams && (db.teams[t].owner == u || db.teams[t].leader == u) then (db, Err(Database))
    else if u in db.audited then (db, Err(Database))
    else
      var d := DropMembers(db, set m | m in db.members && db.members[m].user == u);
      (d.(users := d.users - {u}), Ok(()))
  }

  /** An audit row for a user; for one who is gone the insert fails, and nobody is told. */
  function AuditUser(db: Db, u: UserId): Db {
    if u in db.users then db.(audited := db.audited + {u}) else db
  }

  // ── Members ───────────────────────────────────────────────────────────────

  function InviteMember(db: Db, t: TeamId, u: UserId, inviter: UserId, token: string, expires: nat, id: MemberId)
    : (Db, Result<()>)
  {
    if id in db.members || HasRow(db.members, t, u) || TokenTaken(db.members, token) then (db, Err(Conflict))
    else if t !in db.teams || u !in db.users || inviter !in db.users then (db, Err(Database))
    else (db.(members := db.members[id := Member(t, u, Invited, Some(token), expires)]), Ok(()))
  }

  /** `assign_all_role_to_member`: give an active member every "All" role of their team (ON CONFLICT DO NOTHING). */
  function AssignAll(db: Db, m: MemberId): Db {
    if m in db.members && db.members[m].status.Active?
    then db.(holds := db.holds + (set r | r in db.roles && db.roles[r].team == db.members[m].team && db.roles[r].isAll :: (r, m)))
    else db
  }

  function Activate(db: Db, m: MemberId): Db
    requires m in db.members
  {
    AssignAll(db.(members := db.members[m := db.members[m].(status := Active)]), m)
  }

  ghost function RowOf(ms: map<MemberId, Member>, t: TeamId, u: UserId): (m: MemberId)
    requires HasRow(ms, t, u)
    ensures m in ms && ms[m].team == t && ms[m].user == u
  {
    var m :| m in ms && ms[m].team == t && ms[m].user == u; m
  }

  /**
   * `add_team_member_active`: upsert on (team, user), keeping any invite token the row carries.
   * `added_by` is the added user, as the one caller passes it.
   */
  ghost function AddActive(db: Db, t: TeamId, u: UserId, id: MemberId): (Db, Result<()>) {
    if HasRow(db.members, t, u) then (Activate(db, RowOf(db.members, t, u)), Ok(()))
    else if id in db.members || t !in db.teams || u !in db.users then (db, Err(Database))
    else (AssignAll(db.(members := db.members[id := Member(t, u, Active, None, 0)]), id), Ok(()))
  }

  function AcceptInvitation(db: Db, m: MemberId): Db {
    if m in db.members
    then AssignAll(db.(members := db.members[m := db.members[m].(status := Active, token := None, tokenExpires := 0)]), m)
    else db
  }

  function DeclineInvitation(db: Db, m: MemberId): Db { DropMembers(db, {m}) }

  function RemoveMember(db: Db, t: TeamId, u: UserId): (Db, Result<()>) {
    if !HasRow(db.members, t, u) then (db, Err(NotFound))
    else (DropMembers(db, set m | m in db.members && db.members[m].team == t && db.members[m].user == u), Ok(()))
  }

  predicate HasInvitedRow(ms: map<MemberId, Member>, t: TeamId, u: UserId) {
    exists m :: m in ms && ms[m].team == t && ms[m].user == u && ms[m].status.Invited?
  }

  predicate TokenTakenElsewhere(ms: map<MemberId, Member>, token: string, t: TeamId, u: UserId) {
    exists m :: m in ms && ms[m].token == Some(token) && !(ms[m].team == t && ms[m].user == u)
  }

  function RefreshInvite(db: Db, t: TeamId, u: UserId, token: string, expires: nat): (Db, Result<()>) {
    if !HasInvitedRow(db.members, t, u) then (db, Err(NotFound))
    else if TokenTakenElsewhere(db.members, token, t, u) then (db, Err(Database))
    else (db.(members := map m | m in db.members ::
                var x := db.members[m];
                if x.team == t && x.user == u && x.status.Invited? then x.(token := Some(token), tokenExpires := expires) else x),
          Ok(()))
  }

  // ── Roles ─────────────────────────────────────────────────────────────────

  function CreateRole(db: Db, t: TeamId, name: string, id: RoleId): (Db, Result<()>) {
    if id in db.roles || NameTaken(db.roles, t, name) then (db, Err(Conflict))
    else if t !in db.teams then (db, Err(Database))
    else (db.(roles := db.roles[id := Role(t, name, false)]), Ok(()))
  }

  predicate RoleIn(db: Db, t: TeamId, r: RoleId) { r in db.roles && db.roles[r].team == t }

  function UpdateRole(db: Db, t: TeamId, r: RoleId, name: Option<string>): (Db, Result<()>) {
    if !RoleIn(db, t, r) then (db, Err(NotFound))
    else if name.Some? && name.value != db.roles[r].name && NameTaken(db.roles, t, name.value) then (db, Err(Conflict))
    else (db.(roles := db.roles[r := db.roles[r].(name := Coalesce(name, db.roles[r].name))]), Ok(()))
  }

  function DeleteRole(db: Db, t: TeamId, r: RoleId): (Db, Result<()>) {
    if !RoleIn(db, t, r) then (db, Err(NotFound))
    else if db.roles[r].isAll then (db, Err(Validation))
    else (DropRoles(db, {r}), Ok(()))
  }

  function ActiveRows(ms: map<MemberId, Member>, t: TeamId, u: UserId): set<MemberId> {
    set m | m in ms && ms[m].team == t && ms[m].user == u && ms[m].status.Active?
  }

  function AssignRole(db: Db, t: TeamId, u: UserId, r: RoleId): (Db, Result<()>) {
    var rows := ActiveRows(db.members, t, u);
    if rows == {} then (db, Err(Validation))
    else if exists m :: m in rows && (r, m) in db.holds then (db, Err(Conflict))
    else if !RoleIn(db, t, r) then (db, Err(NotFound))
    else (db.(holds := db.holds + (set m | m in rows :: (r, m))), Ok(()))
  }

  function UnassignRole(db: Db, t: TeamId, u: UserId, r: RoleId): (Db, Result<()>) {
    if !RoleIn(db, t, r) then (db, Err(NotFound))
    else if db.roles[r].isAll then (db, Err(Validation))
    else
      var gone := set p | p in db.holds && p.0 == r && p.1 in db.members && db.members[p.1].team == t && db.members[p.1].user == u;
      if gone == {} then (db, Err(NotFound)) else (db.(holds := db.holds - gone), Ok(()))
  }

  // ── Products ──────────────────────────────────────────────────────────────

  function EnableProduct(db: Db, t: TeamId, p: Product, grantedBy: UserId): (Db, Result<()>) {
    if (t, p) in db.access then (db, Ok(()))
    else if t !in db.teams || p !in db.products || grantedBy !in db.users then (db, Err(Database))
    else (db.(access := db.access + {(t, p)}), Ok(()))
  }

  function DisableProduct(db: Db, t: TeamId, p: Product): (Db, Result<()>) {
    if (t, p) !in db.access then (db, Err(NotFound)) else (DropAccess(db, {(t, p)}), Ok(()))
  }

  /** The handler of a foreign-key failure searches the server's text for the violated table. */
  function ForeignKeyError(text: string): AppError {
    if Contains(text, "team_product_access") || Contains(text, "team_members") then Validation else Database
  }

  /** Upsert; `text` is what the server says if a foreign key is violated. */
  function AssignProductRole(db: Db, t: TeamId, u: UserId, p: Product, role: string, admin: UserId, text: string): (Db, Result<()>) {
    if (t, p) !in db.access || !HasRow(db.members, t, u) || admin !in db.users then (db, Err(ForeignKeyError(text)))
    else (db.(productRoles := db.productRoles[(t, u, p) := role]), Ok(()))
  }

  function RevokeProductRole(db: Db, t: TeamId, u: UserId, p: Product): (Db, Result<()>) {
    if (t, u, p) !in db.productRoles then (db, Err(NotFound))
    else (db.(productRoles := db.productRoles - {(t, u, p)}), Ok(()))
  }

  // ── Any statement ─────────────────────────────────────────────────────────

  datatype Op =
    | OpCreateTeam(lowered: string, owner: UserId, newOrg: Option<OrgId>, ids: NewIds)
    | OpUpdateTeam(team: TeamId, slug: Option<string>, leader: Option<UserId>)
    | OpAdminUpdateTeam(team: TeamId, patch: AdminPatch)
    | OpDeleteTeam(team: TeamId)
    | OpEnsureOrg(orgSlug: string, org: OrgId)
    | OpDeleteOrg(org: OrgId)
    | OpAddUser(user: UserId)
    | OpDeleteUser(user: UserId)
    | OpAudit(user: UserId)
    | OpInvite(team: TeamId, user: UserId, inviter: UserId, token: string, expires: nat, member: MemberId)
    | OpAddActive(team: TeamId, user: UserId, member: MemberId)
    | OpAccept(member: MemberId)
    | OpDecline(member: MemberId)
    | OpRemove(team: TeamId, user: UserId)
    | OpRefreshInvite(team: TeamId, user: UserId, token: string, expires: nat)
    | OpCreateRole(team: TeamId, name: string, role: RoleId)
    | OpUpdateRole(team: TeamId, role: RoleId, newName: Option<string>)
    | OpDeleteRole(team: TeamId, role: RoleId)
    | OpAssignRole(team: TeamId, user: UserId, role: RoleId)
    | OpUnassignRole(team: TeamId, user: UserId, role: RoleId)
    | OpEnableProduct(team: TeamId, product: Product, admin: UserId)
    | OpDisableProduct(team: TeamId, product: Product)
    | OpAssignProductRole(team: TeamId, user: UserId, product: Product, roleText: string, admin: UserId)
    | OpRevokeProductRole(team: TeamId, user: UserId, product: Product)

  ghost function Apply(db: Db, op: Op): Db {
    match op
    case OpCreateTeam(n, o, g, ids) => CreateTeam(db, n, o, g, ids).0
    case OpUpdateTeam(t, s, l) => UpdateTeam(db, t, s, l).0
    case OpAdminUpdateTeam(t, p) => AdminUpdateTeam(db, t, p).0
    case OpDeleteTeam(t) => DeleteTeam(db, t).0
    case OpEnsureOrg(s, o) => EnsureOrg(db, s, o).0
    case OpDeleteOrg(o) => DeleteOrg(db, o).0
    case OpAddUser(u) => db.(users := db.users + {u})
    case OpDeleteUser(u) => DeleteUser(db, u).0
    case OpAudit(u) => AuditUser(db, u)
    case OpInvite(t, u, i, k, e, m) => InviteMember(db, t, u, i, k, e, m).0
    case OpAddActive(t, u, m) => AddActive(db, t, u, m).0
    case OpAccept(m) => AcceptInvitation(db, m)
    case OpDecline(m) => DeclineInvitation(db, m)
    case OpRemove(t, u) => RemoveMember(db, t, u).0
    case OpRefreshInvite(t, u, k, e) => RefreshInvite(db, t, u, k, e).0
    case OpCreateRole(t, n, r) => CreateRole(db, t, n, r).0
    case OpUpdateRole(t, r, n) => UpdateRole(db, t, r, n).0
    case OpDeleteRole(t, r) => DeleteRole(db, t, r).0
    case OpAssignRole(t, u, r) => AssignRole(db, t, u, r).0
    case OpUnassignRole(t, u, r) => UnassignRole(db, t, u, r).0
    case OpEnableProduct(t, p, a) => EnableProduct(db, t, p, a).0
    case OpDisableProduct(t, p) => DisableProduct(db, t, p).0
    case OpAssignProductRole(t, u, p, x, a) => AssignProductRole(db, t, u, p, x, a, "").0
    case OpRevokeProductRole(t, u, p) => RevokeProductRole(db, t, u, p).0
  }

  ghost function Replay(db: Db, ops: seq<Op>): Db
    decreases |ops|
  {
    if ops == [] then db else Replay(Apply(db, ops[0]), ops[1..])
  }
}
