// Migration 025 on data older than it: adopt roles already named "All", seed
// the role for teams without one, and give it to every active member.

module AllRoleMigration {
  import opened TeamTables
  import opened TeamInvariants

  const ALL := "All"

  /** Before the migration no role is flagged; names are unique per team and assignments stay within one. */
  ghost predicate Before(db: Db) {
    && (forall r :: r in db.roles ==> !db.roles[r].isAll)
    && RolesOk(db.roles, db.teams.Keys)
    && HoldsOk(db.holds, db.roles, db.members)
  }

  predicate HasNamed(rs: map<RoleId, Role>, t: TeamId) { exists r :: r in rs && rs[r].team == t && rs[r].name == ALL }

  function Adopted(rs: map<RoleId, Role>): map<RoleId, Role> { map r | r in rs :: rs[r].(isAll := rs[r].name == ALL) }

  /** The ids drawn for the seeded roles, one per team that needs one. */
  ghost predicate Drawn(db: Db, ids: map<RoleId, TeamId>) {
    && (forall r :: r in ids ==> r !in db.roles && ids[r] in db.teams && !HasNamed(db.roles, ids[r]))
    && (forall r, s :: r in ids && s in ids && ids[r] == ids[s] ==> r == s)
    && (forall t :: t in db.teams && !HasNamed(db.roles, t) ==> exists r :: r in ids && ids[r] == t)
  }

  function Seeded(rs: map<RoleId, Role>, ids: map<RoleId, TeamId>): map<RoleId, Role> {
    Adopted(rs) + map r | r in ids :: Role(ids[r], ALL, true)
  }

  function Granted(holds: set<(RoleId, MemberId)>, rs: map<RoleId, Role>, ms: map<MemberId, Member>): set<(RoleId, MemberId)> {
    holds + (set r, m | r in rs && m in ms && rs[r].isAll && rs[r].team == ms[m].team && ms[m].status.Active? :: (r, m))
  }

  function Migrate(db: Db, ids: map<RoleId, TeamId>): Db {
    var rs := Seeded(db.roles, ids);
    db.(roles := rs, holds := Granted(db.holds, rs, db.members))
  }

  /** Whatever the data was: afterwards every team has exactly one "All" role, names stay unique, assignments stay within their team. */
  lemma MigrationSeedsOnePerTeam(db: Db, ids: map<RoleId, TeamId>)
    requires Before(db) && Drawn(db, ids)
    ensures var d := Migrate(db, ids);
            RolesOk(d.roles, d.teams.Keys) && AllPresent(d.roles, d.teams.Keys) && HoldsOk(d.holds, d.roles, d.members)
  {
    hide Before, Drawn, Seeded, Granted, RolesOk, AllPresent, HoldsOk;
    SeededRoles(db, ids);
    SeededEverywhere(db, ids);
    GrantedHolds(db, ids);
  }

  lemma SeededEverywhere(db: Db, ids: map<RoleId, TeamId>)
    requires Drawn(db, ids)
    ensures AllPresent(Seeded(db.roles, ids), db.teams.Keys)
  {
    var rs := Seeded(db.roles, ids);
    forall t | t in db.teams.Keys ensures exists r :: IsAllOf(rs, r, t) {
      if HasNamed(db.roles, t) {
        var r :| r in db.roles && db.roles[r].team == t && db.roles[r].name == ALL;
        assert IsAllOf(rs, r, t);
      } else {
        var r :| r in ids && ids[r] == t;
        assert IsAllOf(rs, r, t);
      }
    }
  }

  lemma GrantedHolds(db: Db, ids: map<RoleId, TeamId>)
    requires Before(db) && Drawn(db, ids)
    ensures HoldsOk(Migrate(db, ids).holds, Migrate(db, ids).roles, db.members)
  {
    hide RolesOk;
  }

  lemma SeededRoles(db: Db, ids: map<RoleId, TeamId>)
    requires Before(db) && Drawn(db, ids)
    ensures RolesOk(Seeded(db.roles, ids), db.teams.Keys)
  {
    forall r | r in db.roles && db.roles[r].name == ALL ensures HasNamed(db.roles, db.roles[r].team) {}
  }

  /** The mirror rule holds from then on exactly if every holder of an adopted role was active. */
  lemma MigrationMirrorsIff(db: Db, ids: map<RoleId, TeamId>)
    requires Before(db) && Drawn(db, ids)
    ensures var d := Migrate(db, ids);
            Mirror(d.holds, d.roles, d.members) <==>
            forall r, m :: (r, m) in db.holds && db.roles[r].name == ALL ==> db.members[m].status.Active?
  {
    hide RolesOk;
    var d := Migrate(db, ids);
    forall r, m | r in d.roles && m in d.members && d.roles[r].isAll && d.roles[r].team == d.members[m].team
      ensures (r, m) in d.holds <==> (r, m) in db.holds || d.members[m].status.Active?
    {
    }
    if Mirror(d.holds, d.roles, d.members) {
      forall r, m | (r, m) in db.holds && db.roles[r].name == ALL ensures db.members[m].status.Active? {
        assert r in d.roles && d.roles[r].isAll && d.roles[r].team == db.members[m].team;
        assert (r, m) in d.holds;
      }
    }
  }
}
