// The Support flag.  The comments on `admin_update_team` and migration 032 say
// an organization has at most one flagged team and a flagged team has an
// organization.  The code keeps neither in every case; this file says exactly
// when it does.

module TeamSupport {
  import opened Prelude
  import opened TeamTables
  import opened TeamInvariants
  import Slug

  predicate Flagged(ts: map<TeamId, Team>, t: TeamId, o: OrgId) { t in ts && ts[t].support && ts[t].org == Some(o) }

  ghost predicate SupportUnique(ts: map<TeamId, Team>) {
    forall t, u, o :: Flagged(ts, t, o) && Flagged(ts, u, o) ==> t == u
  }

  predicate SupportPlaced(ts: map<TeamId, Team>) {
    forall t :: t in ts && ts[t].support ==> ts[t].org.Some?
  }

  // ── admin_update_team ─────────────────────────────────────────────────────

  /** An already flagged team is moved, without mentioning the flag, to an organization that has its own. */
  predicate MovesOntoFlag(ts: map<TeamId, Team>, t: TeamId, p: AdminPatch) {
    && t in ts && ts[t].support && p.support.None? && p.org.Some? && p.org.value.Some?
    && exists k :: k in ts && k != t && ts[k].support && ts[k].org == p.org.value
  }

  /** An already flagged team has its organization cleared without mentioning the flag. */
  predicate ClearsUnderFlag(ts: map<TeamId, Team>, t: TeamId, p: AdminPatch) {
    t in ts && ts[t].support && p.support.None? && p.org == Some(None)
  }

  lemma AdminUpdateKeepsUniqueIff(db: Db, t: TeamId, p: AdminPatch)
    requires SupportUnique(db.teams) && AdminUpdateTeam(db, t, p).1.Ok?
    ensures SupportUnique(AdminUpdateTeam(db, t, p).0.teams) <==> !MovesOntoFlag(db.teams, t, p)
  {
    hide CheckSlug;
    var ts, us := db.teams, AdminUpdateTeam(db, t, p).0.teams;
    if MovesOntoFlag(ts, t, p) {
      var k :| k in ts && k != t && ts[k].support && ts[k].org == p.org.value;
      assert Flagged(us, k, p.org.value.value) && Flagged(us, t, p.org.value.value);
    } else {
      forall a: TeamId, b: TeamId, o: OrgId | Flagged(us, a, o) && Flagged(us, b, o) ensures a == b {
        if a != t && b != t {
          assert Flagged(ts, a, o) && Flagged(ts, b, o);
        } else if a != b {
          OtherFlagGone(db, t, p, if a == t then b else a, o);
        }
      }
    }
  }

  /** After an update that leaves `t` flagged in `o`, no other team is flagged there unless the update moved onto one. */
  lemma OtherFlagGone(db: Db, t: TeamId, p: AdminPatch, k: TeamId, o: OrgId)
    requires SupportUnique(db.teams) && AdminUpdateTeam(db, t, p).1.Ok? && !MovesOntoFlag(db.teams, t, p) && k != t
    requires Flagged(AdminUpdateTeam(db, t, p).0.teams, t, o)
    ensures !Flagged(AdminUpdateTeam(db, t, p).0.teams, k, o)
  {
    hide CheckSlug;
    var ts, us := db.teams, AdminUpdateTeam(db, t, p).0.teams;
    assert p.support != Some(true) && p.org.None? ==> Flagged(ts, t, o);
    assert Flagged(us, k, o) ==> Flagged(ts, k, o);
  }

  lemma AdminUpdateKeepsPlacedIff(db: Db, t: TeamId, p: AdminPatch)
    requires SupportPlaced(db.teams) && AdminUpdateTeam(db, t, p).1.Ok?
    ensures SupportPlaced(AdminUpdateTeam(db, t, p).0.teams) <==> !ClearsUnderFlag(db.teams, t, p)
  {
    hide CheckSlug;
    var us := AdminUpdateTeam(db, t, p).0.teams;
    var ts := if p.support == Some(true) then Unflag(db.teams, Coalesce(p.org, db.teams[t].org).value) else db.teams;
    assert us[t] == Patched(ts[t], p);
  }

  // ── Organizations going away ──────────────────────────────────────────────

  /** Deleting an organization never makes two flagged teams meet, but leaves a flagged team without one. */
  lemma DeleteOrgAndFlags(db: Db, o: OrgId)
    requires o in db.orgs
    ensures SupportUnique(db.teams) ==> SupportUnique(DeleteOrg(db, o).0.teams)
    ensures SupportPlaced(db.teams) ==>
      (SupportPlaced(DeleteOrg(db, o).0.teams) <==> forall t :: t in db.teams ==> !Flagged(db.teams, t, o))
  {
    var us := DeleteOrg(db, o).0.teams;
    forall t: TeamId, q: OrgId | Flagged(us, t, q) ensures Flagged(db.teams, t, q) {}
    assert forall t :: t in db.teams ==>
      us[t].support == db.teams[t].support &&
      (us[t].org.None? <==> db.teams[t].org.None? || db.teams[t].org == Some(o));
  }

  // ── Every other statement ─────────────────────────────────────────────────

  /** Teams may vanish or appear unflagged; the flag and the organization of the others stay. */
  ghost predicate FlagsKept(ts: map<TeamId, Team>, us: map<TeamId, Team>) {
    forall t :: t in us ==>
      (if t in ts then us[t].support == ts[t].support && us[t].org == ts[t].org else !us[t].support)
  }

  lemma FlagsKeptOk(ts: map<TeamId, Team>, us: map<TeamId, Team>)
    requires FlagsKept(ts, us)
    ensures SupportUnique(ts) ==> SupportUnique(us)
    ensures SupportPlaced(ts) ==> SupportPlaced(us)
  {
    forall t: TeamId, o: OrgId | Flagged(us, t, o) ensures Flagged(ts, t, o) {}
  }

  lemma OtherStatementsKeepFlags(db: Db, op: Op)
    requires !op.OpAdminUpdateTeam? && !op.OpDeleteOrg?
    ensures FlagsKept(db.teams, Apply(db, op).teams)
  {
    if TouchesTeams(op) {
      hide Slug.UniqueSlug, CheckSlug;
    } else {
      hide Apply;
      OthersKeepTeams(db, op);
    }
  }

  /** The guard an administrator can check before each statement; one that is refused anyway does no harm. */
  predicate Careful(db: Db, op: Op) {
    match op
    case OpAdminUpdateTeam(t, p) =>
      (AdminUpdateTeam(db, t, p).1.Ok? ==> !MovesOntoFlag(db.teams, t, p) && !ClearsUnderFlag(db.teams, t, p))
    case OpDeleteOrg(o) => o in db.orgs ==> forall t :: t in db.teams ==> !Flagged(db.teams, t, o)
    case _ => true
  }

  ghost predicate CarefulRun(db: Db, ops: seq<Op>)
    decreases |ops|
  {
    ops == [] || (Careful(db, ops[0]) && CarefulRun(Apply(db, ops[0]), ops[1..]))
  }

  ghost predicate SupportThroughout(db: Db, ops: seq<Op>)
    decreases |ops|
  {
    SupportUnique(db.teams) && SupportPlaced(db.teams) && (ops == [] || SupportThroughout(Apply(db, ops[0]), ops[1..]))
  }

  lemma StatementKeepsSupportIff(db: Db, op: Op)
    requires SupportUnique(db.teams) && SupportPlaced(db.teams)
    ensures SupportUnique(Apply(db, op).teams) && SupportPlaced(Apply(db, op).teams) <==> Careful(db, op)
  {
    hide SupportUnique, SupportPlaced, FlagsKept, MovesOntoFlag, ClearsUnderFlag, CheckSlug, Flagged;
    match op
    case OpAdminUpdateTeam(t, p) =>
      if AdminUpdateTeam(db, t, p).1.Ok? {
        AdminUpdateKeepsUniqueIff(db, t, p);
        AdminUpdateKeepsPlacedIff(db, t, p);
      }
    case OpDeleteOrg(o) => if o in db.orgs { DeleteOrgAndFlags(db, o); }
    case _ =>
      OtherStatementsKeepFlags(db, op);
      FlagsKeptOk(db.teams, Apply(db, op).teams);
  }

  /**
   * Throughout a run there is at most one flagged team per organization, and none
   * without an organization, exactly if the run is careful.
   */
  lemma {:induction false} SupportThroughoutIff(db: Db, ops: seq<Op>)
    requires SupportUnique(db.teams) && SupportPlaced(db.teams)
    ensures SupportThroughout(db, ops) <==> CarefulRun(db, ops)
    ensures CarefulRun(db, ops) ==> SupportUnique(Replay(db, ops).teams) && SupportPlaced(Replay(db, ops).teams)
    decreases |ops|
  {
    hide Apply, SupportUnique, SupportPlaced, Careful;
    if ops != [] {
      StatementKeepsSupportIff(db, ops[0]);
      if Careful(db, ops[0]) { SupportThroughoutIff(Apply(db, ops[0]), ops[1..]); }
    }
  }

  // ── What a lookup sees ────────────────────────────────────────────────────

  datatype Lookup = Found(team: TeamId) | NoTeam | Ambiguous

  function FlaggedTeams(ts: map<TeamId, Team>, org: Option<OrgId>): set<TeamId> {
    set t | t in ts && ts[t].support && (org.Some? ==> ts[t].org == org)
  }

  function Only(xs: set<TeamId>): (x: TeamId)
    requires |xs| == 1
    ensures xs == {x}
  {
    var x :| x in xs;
    assert |xs - {x}| == 0;
    assert xs == {x};
    x
  }

  /** `get_support_team`: more than one row is `Ambiguous` only when no organization was named; otherwise `query_opt` fails. */
  function SupportLookup(ts: map<TeamId, Team>, org: Option<OrgId>): Result<Lookup> {
    var rows := FlaggedTeams(ts, org);
    if |rows| == 0 then Ok(NoTeam)
    else if |rows| == 1 then Ok(Found(Only(rows)))
    else if org.None? then Ok(Ambiguous)
    else Err(Database)
  }

  lemma TwoOrFewer<T>(xs: set<T>)
    ensures |xs| <= 1 <==> forall x, y :: x in xs && y in xs ==> x == y
  {
    if xs != {} {
      var x :| x in xs;
      if |xs| <= 1 {
        assert |xs - {x}| == 0;
      } else {
        assert (forall y :: y in xs ==> y == x) ==> xs == {x};
      }
    }
  }

  /** Lookups by organization never fail exactly when no organization has two flagged teams. */
  lemma LookupsSucceedIff(ts: map<TeamId, Team>)
    ensures (forall o :: SupportLookup(ts, Some(o)).Ok?) <==> SupportUnique(ts)
  {
    forall o ensures SupportLookup(ts, Some(o)).Ok? <==> (forall t, u :: Flagged(ts, t, o) && Flagged(ts, u, o) ==> t == u) {
      TwoOrFewer(FlaggedTeams(ts, Some(o)));
      forall t ensures t in FlaggedTeams(ts, Some(o)) <==> Flagged(ts, t, o) {}
    }
  }
}
