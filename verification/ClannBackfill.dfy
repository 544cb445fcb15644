// `ensure_clann_team` and the admin backfill over all active users: everyone
// ends up in a team of the one shared organization, nobody loses anything, and
// running it again does nothing.

module ClannBackfill {
  import opened Prelude
  import opened TeamTables
  import I = TeamInvariants
  import S = TeamStore
  import Slug

  const CLANN := "clann"

  /** `user_has_team_in_org` */
  predicate HasTeamInOrg(db: Db, u: UserId, o: OrgId) {
    exists m :: m in db.members && db.members[m].user == u && db.members[m].status.Active? &&
      db.members[m].team in db.teams && db.teams[db.members[m].team].org == Some(o)
  }

  ghost predicate Covered(db: Db, u: UserId) { exists o :: o in db.orgs && db.orgs[o] == CLANN && HasTeamInOrg(db, u, o) }

  /** One user of the backfill with what the database draws for them; `lowered` is their team's name in lower case. */
  datatype Entry = Entry(user: UserId, lowered: string, orgId: OrgId, ids: NewIds)

  ghost function EnsureClannTeam(db: Db, e: Entry): (Db, Result<Option<TeamId>>) {
    var (d1, org) := EnsureOrg(db, CLANN, e.orgId);
    if org.Err? then (d1, Err(org.error))
    else if HasTeamInOrg(d1, e.user, org.value) then (d1, Ok(None))
    else
      var (d2, team) := CreateTeam(d1, e.lowered, e.user, Some(org.value), e.ids);
      (d2, if team.Ok? then Ok(Some(team.value)) else Err(team.error))
  }

  datatype Counts = Counts(created: nat, already: nat, failed: nat)

  function Counted(c: Counts, r: Result<Option<TeamId>>): Counts {
    if r.Err? then c.(failed := c.failed + 1)
    else if r.value.Some? then c.(created := c.created + 1)
    else c.(already := c.already + 1)
  }

  ghost function Backfill(db: Db, es: seq<Entry>): (Db, Counts)
    decreases |es|
  {
    if es == [] then (db, Counts(0, 0, 0))
    else
      var (d, c) := Backfill(db, es[..|es| - 1]);
      var (d', r) := EnsureClannTeam(d, es[|es| - 1]);
      (d', Counted(c, r))
  }

  // ── One user ──────────────────────────────────────────────────────────────

  /** Nothing of `a` is missing from or different in `b`. */
  ghost predicate Extends(a: Db, b: Db) {
    && a.users == b.users && a.products == b.products && a.access == b.access && a.productRoles == b.productRoles
    && (forall o :: o in a.orgs ==> o in b.orgs && b.orgs[o] == a.orgs[o])
    && (forall t :: t in a.teams ==> t in b.teams && b.teams[t] == a.teams[t])
    && (forall m :: m in a.members ==> m in b.members && b.members[m] == a.members[m])
    && (forall r :: r in a.roles ==> r in b.roles && b.roles[r] == a.roles[r])
    && a.holds <= b.holds
  }

  lemma ExtendsKeepsCovered(a: Db, b: Db, u: UserId)
    requires Extends(a, b) && Covered(a, u)
    ensures Covered(b, u)
  {
    var o :| o in a.orgs && a.orgs[o] == CLANN && HasTeamInOrg(a, u, o);
    var m :| m in a.members && a.members[m].user == u && a.members[m].status.Active? &&
      a.members[m].team in a.teams && a.teams[a.members[m].team].org == Some(o);
    assert m in b.members && b.members[m] == a.members[m];
    assert HasTeamInOrg(b, u, o);
  }

  lemma ExtendsTransitive(a: Db, b: Db, c: Db)
    requires Extends(a, b) && Extends(b, c)
    ensures Extends(a, c)
  {
  }

  lemma EnsureOrgExtends(db: Db, slug: string, id: OrgId)
    ensures Extends(db, EnsureOrg(db, slug, id).0)
  {
  }

  lemma CreateTeamExtends(db: Db, lowered: string, owner: UserId, org: Option<OrgId>, ids: NewIds)
    ensures Extends(db, CreateTeam(db, lowered, owner, org, ids).0)
  {
    hide Slug.UniqueSlug;
  }

  lemma EnsureExtends(db: Db, e: Entry)
    requires I.Inv(db)
    ensures var (d, r) := EnsureClannTeam(db, e);
            I.Inv(d) && Extends(db, d)
  {
    hide I.Inv, Slug.UniqueSlug, EnsureOrg, CreateTeam, Extends, HasTeamInOrg;
    var (d1, org) := EnsureOrg(db, CLANN, e.orgId);
    I.EnsureOrgKeeps(db, CLANN, e.orgId);
    EnsureOrgExtends(db, CLANN, e.orgId);
    if org.Ok? && !HasTeamInOrg(d1, e.user, org.value) {
      I.CreateTeamKeeps(d1, e.lowered, e.user, Some(org.value), e.ids);
      CreateTeamExtends(d1, e.lowered, e.user, Some(org.value), e.ids);
      ExtendsTransitive(db, d1, EnsureClannTeam(db, e).0);
    }
  }

  lemma EnsureCovers(db: Db, e: Entry)
    requires EnsureClannTeam(db, e).1.Ok?
    ensures Covered(EnsureClannTeam(db, e).0, e.user)
  {
    hide Slug.UniqueSlug;
    var (d1, org) := EnsureOrg(db, CLANN, e.orgId);
    var d := EnsureClannTeam(db, e).0;
    assert org.value in d.orgs && d.orgs[org.value] == CLANN;
    if !HasTeamInOrg(d1, e.user, org.value) {
      assert d.members[e.ids.member].user == e.user && d.members[e.ids.member].team == e.ids.team;
      assert HasTeamInOrg(d, e.user, org.value);
    }
  }

  /** A team is added exactly when the user was not covered. */
  lemma EnsureAddsIff(db: Db, e: Entry)
    requires I.OrgsOk(db.orgs) && EnsureClannTeam(db, e).1.Ok?
    requires forall t :: t in db.teams && db.teams[t].org.Some? ==> db.teams[t].org.value in db.orgs
    ensures EnsureClannTeam(db, e).1.value.None? <==> Covered(db, e.user)
  {
    hide Slug.UniqueSlug, CreateTeam;
    var (d1, org) := EnsureOrg(db, CLANN, e.orgId);
    assert HasTeamInOrg(d1, e.user, org.value) <==> HasTeamInOrg(db, e.user, org.value);
    if Covered(db, e.user) { CoveredIsNoOp(db, e); }
  }

  lemma EnsureOrgKeepsTeams(db: Db, slug: string, id: OrgId)
    ensures EnsureOrg(db, slug, id).0.teams == db.teams
  {
  }

  lemma CreateTeamAdds(db: Db, lowered: string, owner: UserId, org: Option<OrgId>, ids: NewIds)
    ensures var (d, r) := CreateTeam(db, lowered, owner, org, ids);
            if r.Ok? then r.value !in db.teams && d.teams.Keys == db.teams.Keys + {r.value} && |d.teams| == |db.teams| + 1
            else d.teams == db.teams
  {
    hide Slug.UniqueSlug;
    var (d, r) := CreateTeam(db, lowered, owner, org, ids);
    if r.Ok? { assert d.teams.Keys == db.teams.Keys + {r.value}; }
  }

  /** What was added is one team whose id is new. */
  lemma EnsureAdds(db: Db, e: Entry)
    ensures var (d, r) := EnsureClannTeam(db, e);
            && |d.teams| == |db.teams| + (if r.Ok? && r.value.Some? then 1 else 0)
            && (r.Ok? && r.value.Some? ==> r.value.value !in db.teams && d.teams.Keys == db.teams.Keys + {r.value.value})
  {
    hide Slug.UniqueSlug, HasTeamInOrg, EnsureOrg, CreateTeam;
    var (d1, org) := EnsureOrg(db, CLANN, e.orgId);
    EnsureOrgKeepsTeams(db, CLANN, e.orgId);
    if org.Ok? { CreateTeamAdds(d1, e.lowered, e.user, Some(org.value), e.ids); }
  }

  // ── The whole backfill ────────────────────────────────────────────────────

  /** Whatever goes wrong on the way, nothing is removed or changed and every user is counted once. */
  lemma {:induction false} BackfillExtends(db: Db, es: seq<Entry>)
    requires I.Inv(db)
    ensures var (d, c) := Backfill(db, es);
            && I.Inv(d) && Extends(db, d)
            && c.created + c.already + c.failed == |es|
            && |d.teams| == |db.teams| + c.created
    decreases |es|
  {
    hide I.Inv, EnsureClannTeam, Extends;
    if es == [] {
      ExtendsItself(db);
    } else {
      var init, e := es[..|es| - 1], es[|es| - 1];
      BackfillExtends(db, init);
      var d := Backfill(db, init).0;
      EnsureExtends(d, e);
      EnsureAdds(d, e);
      ExtendsTransitive(db, d, EnsureClannTeam(d, e).0);
    }
  }

  /** If nothing failed, every user has an active membership in the shared organization. */
  lemma {:induction false} BackfillCovers(db: Db, es: seq<Entry>)
    requires I.Inv(db) && Backfill(db, es).1.failed == 0
    ensures forall e :: e in es ==> Covered(Backfill(db, es).0, e.user)
    decreases |es|
  {
    hide I.Inv, EnsureClannTeam, Extends, Covered;
    if es != [] {
      var init, e := es[..|es| - 1], es[|es| - 1];
      BackfillCovers(db, init);
      BackfillExtends(db, init);
      var d := Backfill(db, init).0;
      EnsureExtends(d, e);
      EnsureCovers(d, e);
      forall x | x in init ensures Covered(EnsureClannTeam(d, e).0, x.user) {
        ExtendsKeepsCovered(d, EnsureClannTeam(d, e).0, x.user);
      }
      assert es == init + [e];
    }
  }

  lemma ExtendsItself(db: Db)
    ensures Extends(db, db)
  {
  }

  lemma InvGivesOrgs(db: Db)
    requires I.Inv(db)
    ensures I.OrgsOk(db.orgs)
    ensures forall t :: t in db.teams && db.teams[t].org.Some? ==> db.teams[t].org.value in db.orgs
  {
    hide I.SlugsOk, I.MembersUnique, I.RolesOk, I.AllPresent, I.Mirror, I.HoldsOk, I.ProductRolesOk, I.MembersOk;
  }

  /** The slugs of all teams, old and new, are valid and pairwise distinct afterwards. */
  lemma BackfillSlugsDistinct(db: Db, es: seq<Entry>, t: TeamId, u: TeamId)
    requires I.Inv(db)
    requires t in Backfill(db, es).0.teams && u in Backfill(db, es).0.teams && t != u
    ensures var d := Backfill(db, es).0;
            d.teams[t].slug != d.teams[u].slug && Slug.ValidSlug(d.teams[t].slug)
  {
    hide Backfill, Slug.ValidSlug, I.Inv;
    BackfillExtends(db, es);
    InvGivesSlugs(Backfill(db, es).0);
  }

  lemma InvGivesSlugs(db: Db)
    requires I.Inv(db)
    ensures I.SlugsOk(db.teams)
  {
    hide I.SlugsOk, I.MembersUnique, I.RolesOk, I.AllPresent, I.Mirror, I.HoldsOk, I.ProductRolesOk, I.MembersOk, I.TeamsOk, I.OrgsOk;
  }

  /** When everyone is covered there is nothing to do: the tables do not change. */
  lemma {:induction false} BackfillOfCovered(db: Db, es: seq<Entry>)
    requires I.OrgsOk(db.orgs) && forall e :: e in es ==> Covered(db, e.user)
    ensures Backfill(db, es) == (db, Counts(0, |es|, 0))
    decreases |es|
  {
    if es != [] {
      var init, e := es[..|es| - 1], es[|es| - 1];
      assert forall x :: x in init ==> x in es;
      BackfillOfCovered(db, init);
      CoveredIsNoOp(db, e);
    }
  }

  lemma CoveredIsNoOp(db: Db, e: Entry)
    requires I.OrgsOk(db.orgs) && Covered(db, e.user)
    ensures EnsureClannTeam(db, e) == (db, Ok(None))
  {
    hide Slug.UniqueSlug, CreateTeam;
    var o :| o in db.orgs && db.orgs[o] == CLANN && HasTeamInOrg(db, e.user, o);
    assert OrgExists(db.orgs, CLANN) && OrgBySlug(db.orgs, CLANN) == o;
  }

  /** An error-free backfill run twice: the second run, over the same users, creates nothing and changes nothing. */
  lemma SecondRunCreatesNothing(db: Db, es: seq<Entry>, again: seq<Entry>)
    requires I.Inv(db) && Backfill(db, es).1.failed == 0
    requires forall e :: e in again ==> exists x :: x in es && x.user == e.user
    ensures Backfill(Backfill(db, es).0, again) == (Backfill(db, es).0, Counts(0, |again|, 0))
  {
    hide Backfill, Covered, I.Inv;
    BackfillExtends(db, es);
    BackfillCovers(db, es);
    InvGivesOrgs(Backfill(db, es).0);
    BackfillOfCovered(Backfill(db, es).0, again);
  }

  // ── The loop ──────────────────────────────────────────────────────────────

  method EnsureTeam(store: S.Store, e: Entry) returns (r: Result<Option<TeamId>>)
    requires I.OrgsOk(store.orgs) && Slug.NoCapitals(e.lowered) && |Slugs(store.teams)| + 2 <= Slug.I32_MAX
    modifies store
    ensures (store.Rows(), r) == EnsureClannTeam(old(store.Rows()), e)
  {
    hide Slug.UniqueSlug, Slug.NoCapitals;
    var org := store.EnsureOrganization(CLANN, e.orgId);
    if org.Err? { return Err(org.error); }
    if HasTeamInOrg(store.Rows(), e.user, org.value) { return Ok(None); }
    var team := store.CreateTeam(e.lowered, e.user, Some(org.value), e.ids);
    return if team.Ok? then Ok(Some(team.value)) else Err(team.error);
  }

  method Run(store: S.Store, es: seq<Entry>) returns (c: Counts)
    requires I.Inv(store.Rows())
    requires forall e :: e in es ==> Slug.NoCapitals(e.lowered)
    requires |store.teams| + |es| + 2 <= Slug.I32_MAX
    modifies store
    ensures (store.Rows(), c) == Backfill(old(store.Rows()), es)
    ensures I.Inv(store.Rows())
    ensures c.created + c.already + c.failed == |es|
    ensures c.failed == 0 ==> forall e :: e in es ==> Covered(store.Rows(), e.user)
  {
    hide Slug.NoCapitals, I.Inv, EnsureClannTeam, Covered, Extends;
    ghost var db := store.Rows();
    c := Counts(0, 0, 0);
    for i := 0 to |es|
      invariant (store.Rows(), c) == Backfill(db, es[..i])
      invariant I.Inv(store.Rows())
      invariant |store.teams| <= |db.teams| + i
    {
      ghost var d := store.Rows();
      InvGivesOrgs(d);
      SlugCount(d.teams);
      EnsureExtends(d, es[i]);
      EnsureAdds(d, es[i]);
      var r := EnsureTeam(store, es[i]);
      c := Counted(c, r);
      assert es[..i + 1][..i] == es[..i];
    }
    assert es[..|es|] == es;
    BackfillExtends(db, es);
    if c.failed == 0 { BackfillCovers(db, es); }
  }

  lemma SlugCount(ts: map<TeamId, Team>)
    ensures |Slugs(ts)| <= |ts|
    decreases |ts|
  {
    if ts.Keys != {} {
      var t :| t in ts;
      var rest := ts - {t};
      assert rest.Keys == ts.Keys - {t};
      SlugCount(rest);
      assert Slugs(ts) == Slugs(rest) + {ts[t].slug};
    } else {
      assert Slugs(ts) == {};
    }
  }
}
