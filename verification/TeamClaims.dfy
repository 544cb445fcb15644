// What a user's token says about their teams: `get_user_active_teams` groups
// the stored product roles by team through a map that it fills and then drains,
// and `user_has_product_access` answers the OAuth2 product gate.

module TeamClaims {
  import opened Prelude
  import opened TeamTables
  import opened TeamInvariants

  datatype Position = Owner | Leader | Plain

  datatype Claim = Claim(team: TeamId, slug: string, position: Position, roleNames: set<string>,
                         productRoles: map<Product, string>, products: set<Product>, org: Option<OrgId>)

  datatype RoleRow = RoleRow(team: TeamId, product: Product, role: string)

  /** A result set: every row once, in whatever order the server returns. */
  predicate Lists<T(==)>(rows: seq<T>, all: set<T>) {
    && (forall i :: 0 <= i < |rows| ==> rows[i] in all)
    && (forall x :: x in all ==> x in rows)
    && (forall i, j :: 0 <= i < j < |rows| ==> rows[i] != rows[j])
  }

  function ActiveRowsOf(ms: map<MemberId, Member>, u: UserId): set<MemberId> {
    set m | m in ms && ms[m].user == u && ms[m].status.Active?
  }

  function RoleRowsOf(prs: map<(TeamId, UserId, Product), string>, u: UserId): set<RoleRow> {
    set k | k in prs && k.1 == u :: RoleRow(k.0, k.2, prs[k])
  }

  // ── The claim, read straight off the tables ───────────────────────────────

  function StoredRoles(prs: map<(TeamId, UserId, Product), string>, t: TeamId, u: UserId): map<Product, string> {
    map k | k in prs && k.0 == t && k.1 == u :: k.2 := prs[k]
  }

  function Products(access: set<(TeamId, Product)>, t: TeamId): set<Product> { set a | a in access && a.0 == t :: a.1 }

  function ClaimOf(db: Db, m: MemberId, roles: map<Product, string>): Claim
    requires m in db.members && db.members[m].team in db.teams
  {
    var x := db.members[m];
    var t := db.teams[x.team];
    Claim(x.team, t.slug,
          if x.user == t.owner then Owner else if x.user == t.leader then Leader else Plain,
          set h | h in db.holds && h.1 == m && h.0 in db.roles :: db.roles[h.0].name,
          roles, Products(db.access, x.team), t.org)
  }

  function OwnClaim(db: Db, m: MemberId): Claim
    requires m in db.members && db.members[m].team in db.teams
  {
    ClaimOf(db, m, StoredRoles(db.productRoles, db.members[m].team, db.members[m].user))
  }

  // ── The grouping loop ─────────────────────────────────────────────────────

  /** The roles recorded for a team by the first `n` rows. */
  ghost predicate Grouped(grouped: map<TeamId, map<Product, string>>, rows: seq<RoleRow>, n: nat)
    requires n <= |rows|
  {
    && (forall t, p :: t in grouped && p in grouped[t] ==> RoleRow(t, p, grouped[t][p]) in rows[..n])
    && (forall i :: 0 <= i < n ==> rows[i].team in grouped && rows[i].product in grouped[rows[i].team])
  }

  method GroupByTeam(rows: seq<RoleRow>) returns (grouped: map<TeamId, map<Product, string>>)
    ensures Grouped(grouped, rows, |rows|)
  {
    grouped := map[];
    for i := 0 to |rows|
      invariant Grouped(grouped, rows, i)
    {
      var r := rows[i];
      var entry := if r.team in grouped then grouped[r.team] else map[];
      grouped := grouped[r.team := entry[r.product := r.role]];
      assert rows[..i + 1] == rows[..i] + [r];
    }
    assert rows[..|rows|] == rows;
  }

  /** One row per (team, product) of this user, so the grouped map is the stored one. */
  lemma GroupedIsStored(db: Db, u: UserId, grouped: map<TeamId, map<Product, string>>, rows: seq<RoleRow>, t: TeamId)
    requires Lists(rows, RoleRowsOf(db.productRoles, u)) && Grouped(grouped, rows, |rows|)
    ensures Entry(grouped, t) == StoredRoles(db.productRoles, t, u)
  {
    var got := Entry(grouped, t);
    var want := StoredRoles(db.productRoles, t, u);
    assert rows[..|rows|] == rows;
    forall p | p in got ensures p in want && want[p] == got[p] {
      assert RoleRow(t, p, got[p]) in RoleRowsOf(db.productRoles, u);
      assert (t, u, p) in db.productRoles;
    }
    forall p | p in want ensures p in got {
      assert (t, u, p) in db.productRoles;
      assert RoleRow((t, u, p).0, (t, u, p).2, db.productRoles[(t, u, p)]) in RoleRowsOf(db.productRoles, u);
    }
  }

  /** A user has one row per team, so no claim's entry is asked for twice. */
  lemma TeamsDiffer(ms: map<MemberId, Member>, u: UserId, rows: seq<MemberId>)
    requires MembersUnique(ms) && Lists(rows, ActiveRowsOf(ms, u))
    ensures forall i, j :: 0 <= i < j < |rows| ==> rows[i] in ms && rows[j] in ms && ms[rows[i]].team != ms[rows[j]].team
  {
  }

  function Entry(grouped: map<TeamId, map<Product, string>>, t: TeamId): map<Product, string> {
    if t in grouped then grouped[t] else map[]
  }

  /** `get_user_active_teams`: each claim's entry is removed from the map as it is used. */
  method UserActiveTeams(db: Db, u: UserId, memberRows: seq<MemberId>, roleRows: seq<RoleRow>) returns (claims: seq<Claim>)
    requires MembersUnique(db.members) && MembersOk(db.members, db.teams.Keys, db.users)
    requires Lists(memberRows, ActiveRowsOf(db.members, u)) && Lists(roleRows, RoleRowsOf(db.productRoles, u))
    ensures |claims| == |memberRows|
    ensures forall i :: 0 <= i < |claims| ==>
      memberRows[i] in db.members && db.members[memberRows[i]].team in db.teams && claims[i] == OwnClaim(db, memberRows[i])
  {
    hide MembersUnique, Grouped, StoredRoles, ClaimOf;
    TeamsDiffer(db.members, u, memberRows);
    var grouped := GroupByTeam(roleRows);
    forall t: TeamId ensures Entry(grouped, t) == StoredRoles(db.productRoles, t, u) {
      GroupedIsStored(db, u, grouped, roleRows, t);
    }
    claims := [];
    for i := 0 to |memberRows|
      invariant |claims| == i
      invariant forall k :: 0 <= k < i ==> claims[k] == OwnClaim(db, memberRows[k])
      invariant forall k :: i <= k < |memberRows| ==>
        Entry(grouped, db.members[memberRows[k]].team) == StoredRoles(db.productRoles, db.members[memberRows[k]].team, u)
    {
      var m := memberRows[i];
      var t := db.members[m].team;
      claims := claims + [ClaimOf(db, m, Entry(grouped, t))];
      grouped := grouped - {t};
    }
  }

  /** In every state the statements keep, a claim's product roles are for products it lists, and it names the "All" role. */
  lemma ClaimsAreSupported(db: Db, m: MemberId)
    requires Inv(db) && m in db.members && db.members[m].status.Active?
    ensures var x := db.members[m];
            var c := OwnClaim(db, m);
            && c.productRoles.Keys <= c.products
            && (forall r :: IsAllOf(db.roles, r, x.team) ==> db.roles[r].name in c.roleNames)
            && (exists r :: IsAllOf(db.roles, r, x.team))
  {
    hide SlugsOk, MembersUnique, RolesOk;
    var x := db.members[m];
    var c := OwnClaim(db, m);
    forall p | p in c.productRoles ensures p in c.products {
      assert (x.team, x.user, p) in db.productRoles;
      assert (x.team, p) in db.access;
      assert (x.team, p).1 == p;
    }
    forall r | IsAllOf(db.roles, r, x.team) ensures db.roles[r].name in c.roleNames {
      assert (r, m) in db.holds;
      assert (r, m).0 == r;
    }
  }

  // ── The product gate ──────────────────────────────────────────────────────

  predicate UserHasProductAccess(db: Db, u: UserId, p: Product) {
    exists m :: m in db.members && db.members[m].user == u && db.members[m].status.Active? && (db.members[m].team, p) in db.access
  }

  /** The pairs the gate answers yes to: what `entitled` stands for in the grant protocol. */
  function AccessPairs(db: Db): set<(UserId, Product)> {
    set m, a | m in db.members && a in db.access && db.members[m].status.Active? && a.0 == db.members[m].team
      :: (db.members[m].user, a.1)
  }

  lemma AccessPairsAreTheGate(db: Db, u: UserId, p: Product)
    ensures (u, p) in AccessPairs(db) <==> UserHasProductAccess(db, u, p)
  {
    if UserHasProductAccess(db, u, p) {
      var m :| m in db.members && db.members[m].user == u && db.members[m].status.Active? && (db.members[m].team, p) in db.access;
      assert (db.members[m].user, (db.members[m].team, p).1) == (u, p);
    }
  }

  /** The gate opens exactly for the products some claim of the user lists. */
  lemma GateOpensIffClaimed(db: Db, u: UserId, p: Product)
    requires MembersOk(db.members, db.teams.Keys, db.users)
    ensures UserHasProductAccess(db, u, p) <==>
            exists m :: m in ActiveRowsOf(db.members, u) &&
              p in OwnClaim(db, m).products
  {
    forall m | m in ActiveRowsOf(db.members, u)
      ensures p in Products(db.access, db.members[m].team) <==> (db.members[m].team, p) in db.access
    {
      if (db.members[m].team, p) in db.access { assert (db.members[m].team, p).1 == p; }
    }
    if UserHasProductAccess(db, u, p) {
      var m :| m in db.members && db.members[m].user == u && db.members[m].status.Active? && (db.members[m].team, p) in db.access;
      assert m in ActiveRowsOf(db.members, u);
    }
  }

  // ── Product roles of members who have not accepted ────────────────────────

  /** The documented rule: a product role belongs to an active member. */
  ghost predicate HoldersActive(db: Db) {
    forall t, u, p :: (t, u, p) in db.productRoles ==> ActiveRows(db.members, t, u) != {}
  }

  /** An assignment keeps that rule exactly when its target is active; it succeeds whatever the row's status. */
  lemma AssignmentKeepsHoldersActiveIff(db: Db, t: TeamId, u: UserId, p: Product, role: string, admin: UserId, text: string)
    requires HoldersActive(db) && (t, p) in db.access && HasRow(db.members, t, u) && admin in db.users
    ensures var (d, r) := AssignProductRole(db, t, u, p, role, admin, text);
            r.Ok? && (HoldersActive(d) <==> ActiveRows(db.members, t, u) != {})
  {
    var d := AssignProductRole(db, t, u, p, role, admin, text).0;
    assert (t, u, p) in d.productRoles;
    assert forall a, b, c :: (a, b, c) in d.productRoles ==> (a, b, c) == (t, u, p) || (a, b, c) in db.productRoles;
  }
}
