// Runs from the empty schema that end where the documentation says the tables
// never are: two Support teams in one organization, a Support team without
// one, and a product role for someone who has not accepted an invitation.

module TeamRuns {
  import opened Prelude
  import opened TeamTables
  import opened TeamInvariants
  import opened TeamSupport
  import opened TeamClaims
  import Slug

  // ── Following a run ───────────────────────────────────────────────────────

  lemma {:induction false} ReplayStep(db: Db, ops: seq<Op>, k: nat)
    requires k < |ops|
    ensures Replay(db, ops[..k + 1]) == Apply(Replay(db, ops[..k]), ops[k])
    decreases k
  {
    hide Apply;
    assert ops[..k + 1][0] == ops[0] && ops[..k + 1][1..] == ops[1..][..k];
    if k > 0 {
      assert ops[..k][0] == ops[0] && ops[..k][1..] == ops[1..][..k - 1];
      ReplayStep(Apply(db, ops[0]), ops[1..], k - 1);
    }
  }

  lemma FirstUser(db: Db, ops: seq<Op>)
    requires ops != [] && ops[0] == OpAddUser(0) && db.users == {}
    ensures Replay(db, ops[..1]) == db.(users := {0})
  {
    ReplayNothing(db, ops[..0]);
    hide Replay, Apply;
    ReplayStep(db, ops, 0);
    AddedUser(db, 0);
  }

  lemma ReplayNothing(db: Db, ops: seq<Op>)
    requires ops == []
    ensures Replay(db, ops) == db
  {
  }

  lemma AddedUser(db: Db, u: UserId)
    ensures Apply(db, OpAddUser(u)) == db.(users := db.users + {u})
  {
  }

  lemma AddedOrg(db: Db, slug: string, id: OrgId)
    requires id !in db.orgs && slug !in db.orgs.Values
    ensures Apply(db, OpEnsureOrg(slug, id)) == db.(orgs := db.orgs[id := slug])
  {
  }

  lemma AddedTeam(db: Db, name: string, org: Option<OrgId>, ids: NewIds)
    requires ids.team !in db.teams && ids.member !in db.members && ids.role !in db.roles && 0 in db.users
    requires org.Some? ==> org.value in db.orgs
    ensures var d := Apply(db, OpCreateTeam(name, 0, org, ids));
            && d == db.(teams := d.teams, members := d.members, roles := d.roles, holds := d.holds)
            && d.teams == db.teams[ids.team := d.teams[ids.team]]
            && d.teams[ids.team].org == org && !d.teams[ids.team].support
            && d.members == db.members[ids.member := Member(ids.team, 0, Active, None, 0)]
            && d.roles.Keys == db.roles.Keys + {ids.role}
  {
    hide Slug.UniqueSlug;
  }

  lemma PatchedTeam(db: Db, t: TeamId, p: AdminPatch)
    requires t in db.teams && p.slug.None? && p.owner.None? && p.leader.None?
    requires p.support == Some(true) ==>
      p.org.None? && db.teams[t].org.Some? && !exists k :: Flagged(db.teams, k, db.teams[t].org.value)
    requires p.org.Some? && p.org.value.Some? ==> p.org.value.value in db.orgs
    ensures Apply(db, OpAdminUpdateTeam(t, p)) == db.(teams := db.teams[t := Patched(db.teams[t], p)])
  {
    if p.support == Some(true) {
      var o := db.teams[t].org.value;
      forall k | k in db.teams ensures Unflag(db.teams, o)[k] == db.teams[k] {
        assert !Flagged(db.teams, k, o);
      }
      assert Unflag(db.teams, o) == db.teams;
    }
  }

  const NO_CHANGE: AdminPatch := AdminPatch(None, None, None, None, None)
  const FLAG: AdminPatch := NO_CHANGE.(support := Some(true))

  // ── Support teams ─────────────────────────────────────────────────────────

  const TWO_FLAGS: seq<Op> :=
    [OpAddUser(0), OpEnsureOrg("a", 0), OpEnsureOrg("b", 1),
     OpCreateTeam("x", 0, Some(0), NewIds(0, 0, 0)), OpCreateTeam("y", 0, Some(1), NewIds(1, 1, 1)),
     OpAdminUpdateTeam(0, FLAG), OpAdminUpdateTeam(1, FLAG),
     OpAdminUpdateTeam(0, NO_CHANGE.(org := Some(Some(1))))]

  lemma TwoOrgs()
    ensures Replay(Fresh({}), TWO_FLAGS[..3]) == Fresh({}).(users := {0}, orgs := map[0 := "a", 1 := "b"])
  {
    hide Replay, Apply;
    var d0, s := Fresh({}), TWO_FLAGS;
    FirstUser(d0, s);
    var d1 := d0.(users := {0});
    ReplayStep(d0, s, 1);
    AddedOrg(d1, "a", 0);
    assert Replay(d0, s[..2]) == d1.(orgs := map[0 := "a"]);
    ReplayStep(d0, s, 2);
    assert "a"[0] != "b"[0];
    AddedOrg(d1.(orgs := map[0 := "a"]), "b", 1);
  }

  lemma TwoTeams()
    ensures var d := Replay(Fresh({}), TWO_FLAGS[..5]);
            && d.orgs.Keys == {0, 1} && d.teams.Keys == {0, 1}
            && d.teams[0].org == Some(0) && d.teams[1].org == Some(1) && !d.teams[0].support && !d.teams[1].support
  {
    hide Replay, Apply;
    var d0, s := Fresh({}), TWO_FLAGS;
    TwoOrgs();
    var d3 := Replay(d0, s[..3]);
    ReplayStep(d0, s, 3);
    AddedTeam(d3, "x", Some(0), NewIds(0, 0, 0));
    ReplayStep(d0, s, 4);
    AddedTeam(Replay(d0, s[..4]), "y", Some(1), NewIds(1, 1, 1));
  }

  /** Two flagged teams in one organization: eight statements, the last one moving a flagged team. */
  lemma SupportUniquenessCanBreak()
    ensures var ts := Replay(Fresh({}), TWO_FLAGS).teams;
            Flagged(ts, 0, 1) && Flagged(ts, 1, 1) && !SupportUnique(ts)
  {
    hide Replay, Apply;
    var d0, s := Fresh({}), TWO_FLAGS;
    TwoTeams();
    ReplayStep(d0, s, 5);
    PatchedTeam(Replay(d0, s[..5]), 0, FLAG);
    ReplayStep(d0, s, 6);
    PatchedTeam(Replay(d0, s[..6]), 1, FLAG);
    ReplayStep(d0, s, 7);
    PatchedTeam(Replay(d0, s[..7]), 0, NO_CHANGE.(org := Some(Some(1))));
    assert s[..8] == s;
  }

  /** A team is flagged and then loses its organization: by a patch that clears it, or with the organization itself. */
  function Orphaning(last: Op): seq<Op> {
    [OpAddUser(0), OpEnsureOrg("a", 0), OpCreateTeam("x", 0, Some(0), NewIds(0, 0, 0)), OpAdminUpdateTeam(0, FLAG), last]
  }

  lemma OneFlaggedTeam(last: Op)
    ensures var d := Replay(Fresh({}), Orphaning(last)[..4]);
            d.orgs == map[0 := "a"] && d.teams.Keys == {0} && d.teams[0].org == Some(0) && d.teams[0].support
  {
    hide Replay, Apply;
    var d0, s := Fresh({}), Orphaning(last);
    FirstUser(d0, s);
    var d1 := d0.(users := {0});
    ReplayStep(d0, s, 1);
    AddedOrg(d1, "a", 0);
    var d2 := d1.(orgs := map[0 := "a"]);
    assert Replay(d0, s[..2]) == d2;
    ReplayStep(d0, s, 2);
    AddedTeam(d2, "x", Some(0), NewIds(0, 0, 0));
    ReplayStep(d0, s, 3);
    PatchedTeam(Replay(d0, s[..3]), 0, FLAG);
  }

  lemma DeletedOrg(db: Db, o: OrgId)
    requires o in db.orgs
    ensures Apply(db, OpDeleteOrg(o)) == DeleteOrg(db, o).0
  {
  }

  /** A flagged team without an organization: five statements, either way. */
  lemma SupportPlacementCanBreak()
    ensures !SupportPlaced(Replay(Fresh({}), Orphaning(OpAdminUpdateTeam(0, NO_CHANGE.(org := Some(None))))).teams)
    ensures !SupportPlaced(Replay(Fresh({}), Orphaning(OpDeleteOrg(0))).teams)
  {
    hide Replay, Apply;
    var d0 := Fresh({});
    var clear := NO_CHANGE.(org := Some(None));
    var s := Orphaning(OpAdminUpdateTeam(0, clear));
    OneFlaggedTeam(OpAdminUpdateTeam(0, clear));
    ReplayStep(d0, s, 4);
    PatchedTeam(Replay(d0, s[..4]), 0, clear);
    assert s[..5] == s;
    var t := Orphaning(OpDeleteOrg(0));
    OneFlaggedTeam(OpDeleteOrg(0));
    ReplayStep(d0, t, 4);
    DeletedOrg(Replay(d0, t[..4]), 0);
    assert t[..5] == t;
  }

  // ── Product roles ─────────────────────────────────────────────────────────

  const INVITED_ROLE: seq<Op> :=
    [OpAddUser(0), OpAddUser(1), OpCreateTeam("x", 0, None, NewIds(0, 0, 0)),
     OpInvite(0, 1, 0, "k", 9, 1), OpEnableProduct(0, "obair", 0), OpAssignProductRole(0, 1, "obair", "lead", 0)]

  lemma InvitedAndEnabled(db: Db)
    requires 0 in db.teams && {0, 1} <= db.users && "obair" in db.products && db.access == {}
    requires db.members == map[0 := Member(0, 0, Active, None, 0)]
    ensures var d := Apply(Apply(db, INVITED_ROLE[3]), INVITED_ROLE[4]);
            d == db.(members := db.members[1 := Member(0, 1, Invited, Some("k"), 9)], access := {(0, "obair")})
  {
    var d := InviteMember(db, 0, 1, 0, "k", 9, 1).0;
    assert !HasRow(db.members, 0, 1) && !TokenTaken(db.members, "k");
    assert d == db.(members := db.members[1 := Member(0, 1, Invited, Some("k"), 9)]);
  }

  lemma RoleAssigned(db: Db)
    requires (0, "obair") in db.access && 1 in db.members && db.members[1].team == 0 && db.members[1].user == 1 && 0 in db.users
    ensures Apply(db, INVITED_ROLE[5]) == db.(productRoles := db.productRoles[(0, 1, "obair") := "lead"])
  {
    assert HasRow(db.members, 0, 1);
  }

  /** Six statements give a product role to a user whose only row is an open invitation. */
  lemma InvitedMemberGetsProductRole()
    ensures var d := Replay(Fresh({"obair"}), INVITED_ROLE);
            && d.productRoles == map[(0, 1, "obair") := "lead"]
            && 1 in d.members && d.members[1] == Member(0, 1, Invited, Some("k"), 9) && !HoldersActive(d)
  {
    hide Replay, Apply;
    var d0, s := Fresh({"obair"}), INVITED_ROLE;
    FirstUser(d0, s);
    ReplayStep(d0, s, 1);
    AddedUser(d0.(users := {0}), 1);
    var d2 := d0.(users := {0, 1});
    assert Replay(d0, s[..2]) == d2;
    ReplayStep(d0, s, 2);
    AddedTeam(d2, "x", None, NewIds(0, 0, 0));
    ReplayStep(d0, s, 3);
    ReplayStep(d0, s, 4);
    InvitedAndEnabled(Replay(d0, s[..3]));
    ReplayStep(d0, s, 5);
    RoleAssigned(Replay(d0, s[..5]));
    assert s[..6] == s;
    var d := Replay(d0, s);
    assert (0, 1, "obair") in d.productRoles && ActiveRows(d.members, 0, 1) == {};
  }
}
