// What one team statement undoes of another: because nothing in the tables
// dangles, creating something and deleting it again restores every row.

module TeamUndo {
  import opened Prelude
  import opened TeamTables
  import opened TeamInvariants
  import Slug

  /** No assignment and no product role can already name a membership row that is not there. */
  lemma NothingNamesFreshMember(db: Db, id: MemberId, t: TeamId, u: UserId)
    requires Inv(db) && id !in db.members && !HasRow(db.members, t, u)
    ensures (set p | p in db.holds && p.1 != id) == db.holds
    ensures (map k | k in db.productRoles && (k.0, k.1) != (t, u) :: db.productRoles[k]) == db.productRoles
  {
    hide SlugsOk, MembersUnique, RolesOk, AllPresent, Mirror, TeamsOk;
    forall p | p in db.holds ensures p.1 != id { assert (p.0, p.1) in db.holds; }
    forall k | k in db.productRoles ensures (k.0, k.1) != (t, u) { assert (k.0, k.1, k.2) in db.productRoles; }
  }

  /** Declining (or removing) an invitation leaves the tables as they were before it. */
  lemma InviteThenDecline(db: Db, t: TeamId, u: UserId, inviter: UserId, token: string, expires: nat, id: MemberId)
    requires Inv(db) && InviteMember(db, t, u, inviter, token, expires, id).1.Ok?
    ensures var d := InviteMember(db, t, u, inviter, token, expires, id).0;
            DeclineInvitation(d, id) == db && RemoveMember(d, t, u) == (db, Ok(()))
  {
    hide Inv;
    var d := InviteMember(db, t, u, inviter, token, expires, id).0;
    NothingNamesFreshMember(db, id, t, u);
    DroppedAlone(db, d, id, t, u);
    assert d.members[id].team == t && d.members[id].user == u;
    assert forall m :: m in db.members ==> !(db.members[m].team == t && db.members[m].user == u);
    var gone := set m | m in d.members && d.members[m].team == t && d.members[m].user == u;
    assert gone == {id};
    assert HasRow(d.members, t, u);
    assert RemoveMember(d, t, u).0 == DropMembers(d, gone);
  }

  lemma DroppedAlone(db: Db, d: Db, id: MemberId, t: TeamId, u: UserId)
    requires id !in db.members && id in d.members && d == db.(members := db.members[id := d.members[id]])
    requires d.members[id].team == t && d.members[id].user == u
    requires (set p | p in db.holds && p.1 != id) == db.holds
    requires (map k | k in db.productRoles && (k.0, k.1) != (t, u) :: db.productRoles[k]) == db.productRoles
    ensures DropMembers(d, {id}) == db
  {
    var e := DropMembers(d, {id});
    assert (set m | m in {id} && m in d.members :: (d.members[m].team, d.members[m].user)) == {(t, u)};
    assert e.members == db.members;
    assert e.holds == (set p | p in db.holds && p.1 != id);
    assert e.productRoles == (map k | k in db.productRoles && (k.0, k.1) != (t, u) :: db.productRoles[k]);
  }

  lemma CreateRoleThenDelete(db: Db, t: TeamId, name: string, id: RoleId)
    requires Inv(db) && CreateRole(db, t, name, id).1.Ok?
    ensures DeleteRole(CreateRole(db, t, name, id).0, t, id) == (db, Ok(()))
  {
    hide SlugsOk, MembersUnique, RolesOk, AllPresent, Mirror, TeamsOk;
    var d := CreateRole(db, t, name, id).0;
    forall p | p in db.holds ensures p.0 != id { assert (p.0, p.1) in db.holds; }
    var e := DropRoles(d, {id});
    assert e.holds == db.holds && e.roles == db.roles;
    assert e == db;
  }

  /** An ordinary role assignment can be taken back; the "All" role cannot be unassigned at all. */
  lemma AssignThenUnassign(db: Db, t: TeamId, u: UserId, r: RoleId)
    requires Inv(db) && AssignRole(db, t, u, r).1.Ok?
    ensures var d := AssignRole(db, t, u, r).0;
            !db.roles[r].isAll && UnassignRole(d, t, u, r) == (db, Ok(()))
  {
    hide SlugsOk, RolesOk, AllPresent, HoldsOk, ProductRolesOk, TeamsOk;
    var rows := ActiveRows(db.members, t, u);
    var d := AssignRole(db, t, u, r).0;
    var m :| m in rows;
    assert (r, m) !in db.holds;
    assert rows == {m};
    var gone := set p | p in d.holds && p.0 == r && p.1 in d.members && d.members[p.1].team == t && d.members[p.1].user == u;
    assert (r, m).0 == r && (r, m) in gone;
    assert gone == {(r, m)};
    assert d.holds - gone == db.holds;
    assert UnassignRole(d, t, u, r).0.holds == d.holds - gone;
  }

  lemma EnableThenDisable(db: Db, t: TeamId, p: Product, admin: UserId)
    requires Inv(db) && (t, p) !in db.access && EnableProduct(db, t, p, admin).1.Ok?
    ensures DisableProduct(EnableProduct(db, t, p, admin).0, t, p) == (db, Ok(()))
  {
    hide SlugsOk, MembersUnique, RolesOk, AllPresent, Mirror, HoldsOk, TeamsOk;
    var d := EnableProduct(db, t, p, admin).0;
    forall k | k in db.productRoles ensures (k.0, k.2) != (t, p) { assert (k.0, k.1, k.2) in db.productRoles; }
    var e := DropAccess(d, {(t, p)});
    assert e.access == db.access && e.productRoles == db.productRoles;
    assert e == db;
  }

  /** A team id that is not there is named by no row. */
  lemma OtherTeamsOnly(db: Db, t: TeamId)
    requires Inv(db) && t !in db.teams
    ensures forall m :: m in db.members ==> db.members[m].team != t
    ensures forall r :: r in db.roles ==> db.roles[r].team != t
    ensures forall a :: a in db.access ==> a.0 != t
    ensures forall k :: k in db.productRoles ==> k.0 != t
    ensures forall h :: h in db.holds ==> h.1 in db.members
  {
    hide SlugsOk, MembersUnique, AllPresent, Mirror, TeamsOk;
    forall a | a in db.access ensures a.0 != t { assert (a.0, a.1) in db.access; }
    forall k | k in db.productRoles ensures k.0 != t {
      assert (k.0, k.1, k.2) in db.productRoles;
      assert (k.0, k.2) in db.access;
    }
    forall h | h in db.holds ensures h.1 in db.members { assert (h.0, h.1) in db.holds; }
  }

  /** Deleting a team right after creating it restores every table, cascade by cascade. */
  lemma CreateTeamThenDelete(db: Db, lowered: string, owner: UserId, org: Option<OrgId>, ids: NewIds)
    requires Inv(db) && CreateTeam(db, lowered, owner, org, ids).1.Ok?
    ensures DeleteTeam(CreateTeam(db, lowered, owner, org, ids).0, ids.team) == (db, Ok(()))
  {
    hide Slug.UniqueSlug, DeleteTeam, SlugsOk, MembersUnique, RolesOk, AllPresent, Mirror, HoldsOk, ProductRolesOk, TeamsOk;
    var d := CreateTeam(db, lowered, owner, org, ids).0;
    CreateTeamKeeps(db, lowered, owner, org, ids);
    DeleteTeamRows(d, ids.team);
    OtherTeamsOnly(db, ids.team);
    var e := DeleteTeam(d, ids.team).0;
    assert e.members == db.members && e.roles == db.roles && e.teams == db.teams && e.access == db.access;
    assert e.productRoles == db.productRoles;
    assert e.holds == db.holds;
    DeleteSucceeds(d, ids.team);
  }

  lemma DeleteSucceeds(db: Db, t: TeamId)
    requires t in db.teams
    ensures DeleteTeam(db, t).1 == Ok(())
  {
    hide DropMembers, DropRoles, DropAccess;
  }
}
