// The owner of a team is always one of its active members, and the owner's row
// carries no invite token.  The member endpoints of src/handlers/teams.rs read
// the tables, decide, and only then write; any number of those decisions may be
// in flight while other statements run.

module TeamOwners {
  import opened Prelude
  import opened TeamTables
  import opened TeamInvariants
  import Slug

  ghost predicate SoundRow(ms: map<MemberId, Member>, m: MemberId, t: TeamId, u: UserId) {
    m in ms && ms[m].team == t && ms[m].user == u && ms[m].status.Active? && ms[m].token.None?
  }

  ghost predicate OwnerIn(ms: map<MemberId, Member>, t: TeamId, u: UserId) { exists m :: SoundRow(ms, m, t, u) }

  ghost predicate OwnersOk(ts: map<TeamId, Team>, ms: map<MemberId, Member>) {
    forall t :: t in ts ==> OwnerIn(ms, t, ts[t].owner)
  }

  predicate IsOwner(ts: map<TeamId, Team>, t: TeamId, u: UserId) { t in ts && ts[t].owner == u }

  /** A statement that neither removes an owner's row nor hands a team to someone else. */
  predicate OwnerSafe(db: Db, op: Op) {
    match op
    case OpRemove(t, u) => !IsOwner(db.teams, t, u)
    case OpDecline(m) => m in db.members ==> !IsOwner(db.teams, db.members[m].team, db.members[m].user)
    case OpAdminUpdateTeam(_, p) => p.owner.None?
    case _ => true
  }

  // ── One statement ─────────────────────────────────────────────────────────

  /** Teams keep their owners, and an owner's sound row is still there. */
  ghost predicate OwnersKept(db: Db, d: Db) {
    && (forall t :: t in d.teams ==> t in db.teams && d.teams[t].owner == db.teams[t].owner)
    && (forall t, m :: t in d.teams && SoundRow(db.members, m, t, db.teams[t].owner) ==> SoundRow(d.members, m, t, db.teams[t].owner))
  }

  lemma OwnersKeptOk(db: Db, d: Db)
    requires OwnersOk(db.teams, db.members) && OwnersKept(db, d)
    ensures OwnersOk(d.teams, d.members)
  {
    forall t | t in d.teams ensures OwnerIn(d.members, t, d.teams[t].owner) {
      var m :| SoundRow(db.members, m, t, db.teams[t].owner);
      assert SoundRow(d.members, m, t, d.teams[t].owner);
    }
  }

  /** The rows of `teams` change, but neither their owners nor any membership. */
  lemma TeamRowsKeepOwners(db: Db, d: Db)
    requires d.members == db.members
    requires forall t :: t in d.teams ==> t in db.teams && d.teams[t].owner == db.teams[t].owner
    ensures OwnersKept(db, d)
  {
  }

  lemma TeamStatementsKeepOwners(db: Db, t: TeamId, slug: Option<string>, leader: Option<UserId>, o: OrgId)
    ensures OwnersKept(db, UpdateTeam(db, t, slug, leader).0)
    ensures OwnersKept(db, DeleteOrg(db, o).0)
  {
    hide OwnersKept;
    TeamRowsKeepOwners(db, UpdateTeam(db, t, slug, leader).0);
    TeamRowsKeepOwners(db, DeleteOrg(db, o).0);
  }

  lemma AdminUpdateKeepsOwners(db: Db, t: TeamId, p: AdminPatch)
    requires p.owner.None?
    ensures OwnersKept(db, AdminUpdateTeam(db, t, p).0)
  {
    hide OwnersKept, CheckSlug;
    TeamRowsKeepOwners(db, AdminUpdateTeam(db, t, p).0);
  }

  /** The rows of `team_members` change, but no sound row is lost. */
  lemma MemberRowsKeepOwners(db: Db, d: Db)
    requires d.teams == db.teams
    requires forall m :: m in db.members && db.members[m].status.Active? && db.members[m].token.None? ==>
               m in d.members && SoundRow(d.members, m, db.members[m].team, db.members[m].user)
    ensures OwnersKept(db, d)
  {
  }

  lemma InvitationsKeepOwners(db: Db, t: TeamId, u: UserId, inviter: UserId, token: string, expires: nat, m: MemberId)
    ensures OwnersKept(db, InviteMember(db, t, u, inviter, token, expires, m).0)
    ensures OwnersKept(db, RefreshInvite(db, t, u, token, expires).0)
  {
    hide OwnersKept, HasRow, TokenTaken, TokenTakenElsewhere, HasInvitedRow;
    MemberRowsKeepOwners(db, InviteMember(db, t, u, inviter, token, expires, m).0);
    MemberRowsKeepOwners(db, RefreshInvite(db, t, u, token, expires).0);
  }

  lemma AddActiveKeepsOwners(db: Db, t: TeamId, u: UserId, m: MemberId)
    ensures OwnersKept(db, AddActive(db, t, u, m).0)
  {
    hide OwnersKept, HasRow;
    MemberRowsKeepOwners(db, AddActive(db, t, u, m).0);
  }

  lemma AcceptKeepsOwners(db: Db, m: MemberId)
    ensures OwnersKept(db, AcceptInvitation(db, m))
  {
    hide OwnersKept;
    MemberRowsKeepOwners(db, AcceptInvitation(db, m));
  }

  lemma DeletionsKeepOwners(db: Db, t: TeamId, u: UserId, m: MemberId)
    ensures !IsOwner(db.teams, t, u) ==> OwnersKept(db, RemoveMember(db, t, u).0)
    ensures OwnerSafe(db, OpDecline(m)) ==> OwnersKept(db, DeclineInvitation(db, m))
    ensures OwnersKept(db, DeleteUser(db, u).0)
  {
  }

  lemma DeleteTeamKeepsOwners(db: Db, t: TeamId)
    requires Inv(db)
    ensures OwnersKept(db, DeleteTeam(db, t).0)
  {
    hide SlugsOk, RolesOk, AllPresent, Mirror, HoldsOk, ProductRolesOk, TeamsOk, MembersUnique, DropMembers, DropRoles, DropAccess;
    if t in db.teams { DeleteTeamRows(db, t); }
  }

  lemma CreateTeamKeepsOwners(db: Db, lowered: string, owner: UserId, org: Option<OrgId>, ids: NewIds)
    requires OwnersOk(db.teams, db.members)
    ensures var d := CreateTeam(db, lowered, owner, org, ids).0; OwnersOk(d.teams, d.members)
  {
    var d := CreateTeam(db, lowered, owner, org, ids).0;
    forall t | t in d.teams ensures OwnerIn(d.members, t, d.teams[t].owner) {
      if t in db.teams {
        var m :| SoundRow(db.members, m, t, db.teams[t].owner);
        assert SoundRow(d.members, m, t, d.teams[t].owner);
      } else {
        assert SoundRow(d.members, ids.member, t, owner);
      }
    }
  }

  /** What every owner-safe statement except the creation of a team does to owners. */
  lemma SafeStatementKeepsOwners(db: Db, op: Op)
    requires Inv(db) && OwnerSafe(db, op) && !op.OpCreateTeam?
    ensures OwnersKept(db, Apply(db, op))
  {
    hide Inv, OwnersKept, CreateTeam, UpdateTeam, AdminUpdateTeam, DeleteTeam, EnsureOrg, DeleteOrg, DeleteUser, InviteMember, AddActive,
      AcceptInvitation, RefreshInvite, CreateRole, UpdateRole, DeleteRole, AssignRole, UnassignRole,
      EnableProduct, DisableProduct, AssignProductRole, RevokeProductRole;
    match op
    case OpUpdateTeam(t, s, l) => TeamStatementsKeepOwners(db, t, s, l, 0);
    case OpAdminUpdateTeam(t, p) => AdminUpdateKeepsOwners(db, t, p);
    case OpDeleteOrg(o) => TeamStatementsKeepOwners(db, 0, None, None, o);
    case OpDeleteTeam(t) => DeleteTeamKeepsOwners(db, t);
    case OpDeleteUser(u) => DeletionsKeepOwners(db, 0, u, 0);
    case OpRemove(t, u) => DeletionsKeepOwners(db, t, u, 0);
    case OpDecline(m) => DeletionsKeepOwners(db, 0, 0, m);
    case OpInvite(t, u, i, k, e, m) => InvitationsKeepOwners(db, t, u, i, k, e, m);
    case OpAddActive(t, u, m) => AddActiveKeepsOwners(db, t, u, m);
    case OpAccept(m) => AcceptKeepsOwners(db, m);
    case OpRefreshInvite(t, u, k, e) => InvitationsKeepOwners(db, t, u, 0, k, e, 0);
    case _ => OthersKeepTeams(db, op); OthersKeepMembers(db, op); MemberRowsKeepOwners(db, Apply(db, op));
  }

  lemma SafeStatementKeepsOwnersOk(db: Db, op: Op)
    requires Inv(db) && OwnersOk(db.teams, db.members) && OwnerSafe(db, op)
    ensures OwnersOk(Apply(db, op).teams, Apply(db, op).members)
  {
    hide Inv, OwnersOk, OwnersKept;
    if op.OpCreateTeam? {
      CreateTeamKeepsOwners(db, op.lowered, op.owner, op.newOrg, op.ids);
    } else {
      SafeStatementKeepsOwners(db, op);
      OwnersKeptOk(db, Apply(db, op));
    }
  }

  // ── The two statements that can break it ──────────────────────────────────

  /** Admin removal leaves every owner in place exactly when its target is not the owner. */
  lemma AdminRemovalKeepsOwnersIff(db: Db, t: TeamId, u: UserId)
    requires Inv(db) && OwnersOk(db.teams, db.members)
    ensures var d := RemoveMember(db, t, u).0;
            OwnersOk(d.teams, d.members) <==> !IsOwner(db.teams, t, u)
  {
    hide SlugsOk, RolesOk, AllPresent, Mirror, HoldsOk, ProductRolesOk, TeamsOk;
    var d := RemoveMember(db, t, u).0;
    if IsOwner(db.teams, t, u) {
      var m :| SoundRow(db.members, m, t, u);
      assert HasRow(db.members, t, u);
      assert forall n :: !SoundRow(d.members, n, t, u);
      assert !OwnerIn(d.members, t, d.teams[t].owner);
    } else {
      DeletionsKeepOwners(db, t, u, 0);
      OwnersKeptOk(db, d);
    }
  }

  /** An admin owner change keeps it exactly when the new owner is already an active member with no invite token. */
  lemma AdminOwnerChangeKeepsOwnersIff(db: Db, t: TeamId, p: AdminPatch)
    requires OwnersOk(db.teams, db.members) && p.owner.Some? && AdminUpdateTeam(db, t, p).1.Ok?
    ensures var d := AdminUpdateTeam(db, t, p).0;
            OwnersOk(d.teams, d.members) <==> OwnerIn(db.members, t, p.owner.value)
  {
    var d := AdminUpdateTeam(db, t, p).0;
    assert d.teams[t].owner == p.owner.value;
    assert forall k :: k in d.teams && k != t ==> k in db.teams && d.teams[k].owner == db.teams[k].owner;
  }

  // ── Decisions of the member endpoints ─────────────────────────────────────

  datatype Request =
    | UpdateReq(caller: UserId, team: TeamId, slug: Option<string>, leader: Option<UserId>)
    | InviteReq(caller: UserId, team: TeamId, invitee: UserId, token: string, expires: nat, id: MemberId)
    | RemoveReq(caller: UserId, team: TeamId, target: UserId)
    | AcceptReq(caller: UserId, token: string, now: nat)
    | DeclineReq(caller: UserId, token: string)
    | ResendReq(caller: UserId, team: TeamId, invitee: UserId, token: string, expires: nat)

  ghost function RowByToken(ms: map<MemberId, Member>, token: string): (m: MemberId)
    requires TeamTables.TokenTaken(ms, token)
    ensures m in ms && ms[m].token == Some(token)
  {
    var m :| m in ms && ms[m].token == Some(token); m
  }

  predicate Leads(ts: map<TeamId, Team>, t: TeamId, u: UserId) { t in ts && (ts[t].owner == u || ts[t].leader == u) }

  /** What an endpoint does with the tables as it reads them: refuse, or go on to one statement. */
  ghost function Decide(db: Db, r: Request): Result<Op> {
    match r
    case UpdateReq(c, t, slug, leader) =>
      if t !in db.teams then Err(NotFound)
      else if !Leads(db.teams, t, c) then Err(Forbidden)
      else if leader.Some? && !IsOwner(db.teams, t, c) then Err(Forbidden)
      else if leader.Some? && ActiveRows(db.members, t, leader.value) == {} then Err(Validation)
      else Ok(OpUpdateTeam(t, slug, leader))
    case InviteReq(c, t, u, token, expires, id) =>
      if t !in db.teams then Err(NotFound)
      else if !Leads(db.teams, t, c) then Err(Forbidden)
      else if u !in db.users then Err(NotFound)
      else if HasRow(db.members, t, u) then Err(Conflict)
      else Ok(OpInvite(t, u, c, token, expires, id))
    case RemoveReq(c, t, u) =>
      if t !in db.teams then Err(NotFound)
      else if c != u && !Leads(db.teams, t, c) then Err(Forbidden)
      else if IsOwner(db.teams, t, u) then Err(Validation)
      else Ok(OpRemove(t, u))
    case AcceptReq(c, token, now) =>
      if !TokenTaken(db.members, token) then Err(InvalidToken)
      else
        var m := RowByToken(db.members, token);
        if db.members[m].user != c then Err(Forbidden)
        else if db.members[m].tokenExpires < now then Err(InvalidToken)
        else Ok(OpAccept(m))
    case DeclineReq(c, token) =>
      if !TokenTaken(db.members, token) then Err(InvalidToken)
      else
        var m := RowByToken(db.members, token);
        if db.members[m].user != c then Err(Forbidden) else Ok(OpDecline(m))
    case ResendReq(c, t, u, token, expires) =>
      if t !in db.teams then Err(NotFound)
      else if !Leads(db.teams, t, c) then Err(Forbidden)
      else if !HasRow(db.members, t, u) then Err(NotFound)
      else if !HasInvitedRow(db.members, t, u) then Err(Validation)
      else Ok(OpRefreshInvite(t, u, token, expires))
  }

  /** No endpoint decides on a statement that would remove an owner: the owner's row has no token to decline by. */
  lemma DecisionsAreSafe(db: Db, r: Request)
    requires Inv(db) && OwnersOk(db.teams, db.members) && Decide(db, r).Ok?
    ensures OwnerSafe(db, Decide(db, r).value)
  {
    hide SlugsOk, RolesOk, AllPresent, Mirror, HoldsOk, ProductRolesOk, TeamsOk;
    if r.DeclineReq? {
      var m := RowByToken(db.members, r.token);
      var t := db.members[m].team;
      var n :| SoundRow(db.members, n, t, db.teams[t].owner);
    }
  }

  lemma DeletionsOnlyDrop(db: Db, op: Op)
    requires op.OpDeleteTeam? || op.OpDeleteUser? || op.OpDecline? || op.OpRemove?
    ensures forall m :: m in Apply(db, op).members ==> m in db.members && Apply(db, op).members[m] == db.members[m]
  {
    hide HasRow;
  }

  /** The statements that put this token on a row. */
  predicate Issues(op: Op, token: string) { (op.OpInvite? || op.OpRefreshInvite?) && op.token == token }

  lemma TokensComeFromInvitations(db: Db, op: Op, token: string)
    requires !TokenTaken(db.members, token) && !Issues(op, token)
    ensures !TokenTaken(Apply(db, op).members, token)
  {
    if !TouchesMembers(op) {
      hide Apply;
      OthersKeepMembers(db, op);
    } else if op.OpDeleteTeam? || op.OpDeleteUser? || op.OpDecline? || op.OpRemove? {
      hide Apply;
      DeletionsOnlyDrop(db, op);
    } else if op.OpCreateTeam? || op.OpInvite? {
      hide HasRow, Slug.UniqueSlug;
    } else {
      hide HasRow, HasInvitedRow, TokenTakenElsewhere;
    }
  }

  /** A token on no row stays on no row until it is issued again. */
  lemma {:induction false} SpentStaysSpent(db: Db, ops: seq<Op>, token: string)
    requires !TokenTaken(db.members, token) && forall op :: op in ops ==> !Issues(op, token)
    ensures !TokenTaken(Replay(db, ops).members, token)
    decreases |ops|
  {
    hide Apply, TokenTaken, Issues;
    if ops != [] {
      TokensComeFromInvitations(db, ops[0], token);
      SpentStaysSpent(Apply(db, ops[0]), ops[1..], token);
    }
  }

  /**
   * Accepting an invitation activates the caller's own row and nobody else's, and
   * spends the token: until it is issued again, whatever statements follow, no
   * accept or decline finds it.
   */
  lemma InvitationUsedOnce(db: Db, caller: UserId, token: string, now: nat, ops: seq<Op>, other: UserId, later: nat) returns (m: MemberId)
    requires Inv(db) && Decide(db, AcceptReq(caller, token, now)).Ok?
    requires forall op :: op in ops ==> !Issues(op, token)
    ensures m in db.members && db.members[m].token == Some(token) && db.members[m].user == caller && now <= db.members[m].tokenExpires
    ensures var d := Apply(db, Decide(db, AcceptReq(caller, token, now)).value);
            && d == db.(members := db.members[m := db.members[m].(status := Active, token := None, tokenExpires := 0)], holds := d.holds)
            && (forall h :: h in d.holds && h !in db.holds ==> h.1 == m && IsAllOf(db.roles, h.0, db.members[m].team))
            && Decide(Replay(d, ops), AcceptReq(other, token, later)) == Err(InvalidToken)
            && Decide(Replay(d, ops), DeclineReq(other, token)) == Err(InvalidToken)
  {
    hide SlugsOk, RolesOk, AllPresent, Mirror, HoldsOk, ProductRolesOk, TeamsOk, Replay, Issues;
    m := RowByToken(db.members, token);
    var d := AcceptInvitation(db, m);
    assert Decide(db, AcceptReq(caller, token, now)) == Ok(OpAccept(m));
    assert !TokenTaken(d.members, token);
    SpentStaysSpent(d, ops, token);
  }

  /** Declining one deletes the caller's row, and spends the token just as finally. */
  lemma DeclinedOnce(db: Db, caller: UserId, token: string, ops: seq<Op>, other: UserId, later: nat)
    requires Inv(db) && Decide(db, DeclineReq(caller, token)).Ok?
    requires forall op :: op in ops ==> !Issues(op, token)
    ensures var m := RowByToken(db.members, token);
            var d := Apply(db, Decide(db, DeclineReq(caller, token)).value);
            && db.members[m].user == caller && d.members == db.members - {m}
            && Decide(Replay(d, ops), AcceptReq(other, token, later)) == Err(InvalidToken)
            && Decide(Replay(d, ops), DeclineReq(other, token)) == Err(InvalidToken)
  {
    hide SlugsOk, RolesOk, AllPresent, Mirror, HoldsOk, ProductRolesOk, TeamsOk, Replay, Issues;
    var d := DeclineInvitation(db, RowByToken(db.members, token));
    assert !TokenTaken(d.members, token);
    SpentStaysSpent(d, ops, token);
  }

  // ── Decisions in flight ───────────────────────────────────────────────────

  /** The row ids and team ids ever drawn; a `gen_random_uuid()` value is never drawn twice. */
  datatype Ids = Ids(teams: set<TeamId>, members: set<MemberId>)

  datatype World = World(db: Db, used: Ids, inFlight: map<nat, Op>)

  datatype Event = Do(op: Op) | Begin(h: nat, r: Request) | Finish(h: nat) | Abandon(h: nat)

  function DrawnTeams(op: Op): set<TeamId> { if op.OpCreateTeam? then {op.ids.team} else {} }

  function DrawnMembers(op: Op): set<MemberId> {
    if op.OpCreateTeam? then {op.ids.member}
    else if op.OpInvite? || op.OpAddActive? then {op.member}
    else {}
  }

  /** Any statement of the service except admin removal, decline, and an admin owner change. */
  predicate Unguarded(op: Op) {
    !op.OpRemove? && !op.OpDecline? && (op.OpAdminUpdateTeam? ==> op.patch.owner.None?)
  }

  predicate FreshIds(w: World, op: Op) { DrawnTeams(op) !! w.used.teams && DrawnMembers(op) !! w.used.members }

  ghost function Perform(w: World, op: Op): World {
    if FreshIds(w, op)
    then w.(db := Apply(w.db, op), used := Ids(w.used.teams + DrawnTeams(op), w.used.members + DrawnMembers(op)))
    else w
  }

  ghost function Turn(w: World, e: Event): World {
    match e
    case Do(op) => if Unguarded(op) then Perform(w, op) else w
    case Begin(h, r) =>
      if h !in w.inFlight && Decide(w.db, r).Ok? then w.(inFlight := w.inFlight[h := Decide(w.db, r).value]) else w
    case Finish(h) =>
      if h in w.inFlight then Perform(w.(inFlight := w.inFlight - {h}), w.inFlight[h]) else w
    case Abandon(h) => w.(inFlight := w.inFlight - {h})
  }

  ghost function Turns(w: World, es: seq<Event>): World
    decreases |es|
  {
    if es == [] then w else Turns(Turn(w, es[0]), es[1..])
  }

  /** The ids a decision in flight names were drawn before it. */
  ghost predicate Named(used: Ids, op: Op) {
    && (op.OpRemove? ==> op.team in used.teams)
    && (op.OpDecline? ==> op.member in used.members)
  }

  ghost predicate WorldOk(w: World) {
    && Inv(w.db) && OwnersOk(w.db.teams, w.db.members)
    && w.db.teams.Keys <= w.used.teams && w.db.members.Keys <= w.used.members
    && (forall h :: h in w.inFlight ==> OwnerSafe(w.db, w.inFlight[h]) && Named(w.used, w.inFlight[h]))
  }

  lemma TeamIdsCovered(db: Db, op: Op)
    requires TouchesTeams(op)
    ensures Apply(db, op).teams.Keys <= db.teams.Keys + DrawnTeams(op)
  {
    hide CheckSlug, Patched;
  }

  lemma MemberIdsCovered(db: Db, op: Op)
    requires TouchesMembers(op)
    ensures Apply(db, op).members.Keys <= db.members.Keys + DrawnMembers(op)
  {
    hide Slug.UniqueSlug, ForeignKeyError, NameTaken, HasRow, TokenTaken, TokenTakenElsewhere, HasInvitedRow;
  }

  lemma UsedCovers(db: Db, op: Op)
    ensures Apply(db, op).teams.Keys <= db.teams.Keys + DrawnTeams(op)
    ensures Apply(db, op).members.Keys <= db.members.Keys + DrawnMembers(op)
  {
    hide Apply;
    if TouchesTeams(op) { TeamIdsCovered(db, op); } else { OthersKeepTeams(db, op); }
    if TouchesMembers(op) { MemberIdsCovered(db, op); } else { OthersKeepMembers(db, op); }
  }

  predicate SameOwner(x: Member, y: Member) { x.team == y.team && x.user == y.user }

  /** Rows never change hands: a membership row keeps its team and its user for as long as it exists. */
  lemma RowsKeepTheirUser(db: Db, op: Op)
    ensures forall m :: m in Apply(db, op).members && m !in DrawnMembers(op) ==>
              m in db.members && SameOwner(Apply(db, op).members[m], db.members[m])
  {
    hide Apply;
    if !TouchesMembers(op) {
      OthersKeepMembers(db, op);
    } else if op.OpDeleteTeam? || op.OpDeleteUser? || op.OpDecline? || op.OpRemove? {
      DeletionsOnlyDrop(db, op);
    } else {
      if op.OpCreateTeam? || op.OpInvite? { InsertsKeepUsers(db, op); } else { UpdatesKeepUsers(db, op); }
    }
  }

  lemma InsertsKeepUsers(db: Db, op: Op)
    requires op.OpCreateTeam? || op.OpInvite?
    ensures forall m :: m in Apply(db, op).members && m !in DrawnMembers(op) ==>
              m in db.members && SameOwner(Apply(db, op).members[m], db.members[m])
  {
    hide Slug.UniqueSlug, HasRow, TokenTaken;
  }

  lemma UpdatesKeepUsers(db: Db, op: Op)
    requires op.OpAddActive? || op.OpAccept? || op.OpRefreshInvite?
    ensures forall m :: m in Apply(db, op).members && m !in DrawnMembers(op) ==>
              m in db.members && SameOwner(Apply(db, op).members[m], db.members[m])
  {
    hide HasRow, TokenTakenElsewhere, HasInvitedRow;
  }

  lemma TeamsKeepTheirOwner(db: Db, op: Op)
    requires op.OpAdminUpdateTeam? ==> op.patch.owner.None?
    ensures forall t :: t in Apply(db, op).teams && t !in DrawnTeams(op) ==>
              t in db.teams && Apply(db, op).teams[t].owner == db.teams[t].owner
  {
  }

  /** A decision stays safe while other statements run. */
  lemma DecisionStaysSafe(db: Db, used: Ids, decided: Op, op: Op)
    requires Inv(db) && OwnerSafe(db, decided) && Named(used, decided) && OwnerSafe(db, op)
    requires db.teams.Keys <= used.teams && DrawnTeams(op) !! used.teams && DrawnMembers(op) !! used.members
    ensures OwnerSafe(Apply(db, op), decided)
  {
    hide Apply, SlugsOk, RolesOk, AllPresent, Mirror, HoldsOk, ProductRolesOk, TeamsOk, MembersUnique;
    RowsKeepTheirUser(db, op);
    TeamsKeepTheirOwner(db, op);
    if decided.OpDecline? && decided.member in Apply(db, op).members {
      assert db.members[decided.member].team in db.teams;
    }
  }

  lemma PerformKeepsWorld(w: World, op: Op)
    requires WorldOk(w) && OwnerSafe(w.db, op)
    ensures WorldOk(Perform(w, op))
  {
    hide Inv, OwnersOk, OwnerSafe, Apply, Named;
    if FreshIds(w, op) {
      ApplyKeepsInv(w.db, op);
      SafeStatementKeepsOwnersOk(w.db, op);
      UsedCovers(w.db, op);
      forall h | h in w.inFlight ensures OwnerSafe(Apply(w.db, op), w.inFlight[h]) {
        DecisionStaysSafe(w.db, w.used, w.inFlight[h], op);
      }
      NamedGrows(w.used, Perform(w, op).used);
    }
  }

  lemma NamedGrows(a: Ids, b: Ids)
    requires a.teams <= b.teams && a.members <= b.members
    ensures forall op :: Named(a, op) ==> Named(b, op)
  {
  }

  lemma DecisionsAreNamed(db: Db, used: Ids, r: Request)
    requires db.teams.Keys <= used.teams && db.members.Keys <= used.members && Decide(db, r).Ok?
    ensures Named(used, Decide(db, r).value)
  {
  }

  lemma TurnKeepsWorld(w: World, e: Event)
    requires WorldOk(w)
    ensures WorldOk(Turn(w, e))
  {
    hide Inv, OwnersOk, Named, Decide, Perform;
    match e
    case Do(op) => if Unguarded(op) { PerformKeepsWorld(w, op); }
    case Begin(h, r) =>
      if h !in w.inFlight && Decide(w.db, r).Ok? {
        DecisionsAreSafe(w.db, r);
        DecisionsAreNamed(w.db, w.used, r);
      }
    case Finish(h) =>
      if h in w.inFlight { PerformKeepsWorld(w.(inFlight := w.inFlight - {h}), w.inFlight[h]); }
    case Abandon(h) =>
  }

  lemma {:induction false} TurnsKeepWorld(w: World, es: seq<Event>)
    requires WorldOk(w)
    ensures WorldOk(Turns(w, es))
    decreases |es|
  {
    hide WorldOk, Turn;
    if es != [] {
      TurnKeepsWorld(w, es[0]);
      TurnsKeepWorld(Turn(w, es[0]), es[1..]);
    }
  }

  /**
   * However endpoint decisions and other statements interleave, every team's owner
   * is an active member without an invite token — so no token finds the owner's row,
   * and nothing in flight will remove it.
   */
  lemma OwnerStaysActiveMember(products: set<Product>, es: seq<Event>, t: TeamId) returns (m: MemberId)
    requires t in Turns(World(Fresh(products), Ids({}, {}), map[]), es).db.teams
    ensures var w := Turns(World(Fresh(products), Ids({}, {}), map[]), es);
            && SoundRow(w.db.members, m, t, w.db.teams[t].owner)
            && (forall n :: n in w.db.members && w.db.members[n].team == t && w.db.members[n].user == w.db.teams[t].owner ==> n == m)
            && (forall h :: h in w.inFlight ==> m in Apply(w.db, w.inFlight[h]).members || t !in Apply(w.db, w.inFlight[h]).teams)
  {
    hide Turns, Apply;
    var w0 := World(Fresh(products), Ids({}, {}), map[]);
    var w := Turns(w0, es);
    TurnsKeepWorld(w0, es);
    m := OwnersRow(w.db, t);
    forall h | h in w.inFlight ensures m in Apply(w.db, w.inFlight[h]).members || t !in Apply(w.db, w.inFlight[h]).teams {
      InFlightKeepsRow(w.db, w.inFlight[h], t, m);
    }
  }

  lemma OwnersRow(db: Db, t: TeamId) returns (m: MemberId)
    requires Inv(db) && OwnersOk(db.teams, db.members) && t in db.teams
    ensures SoundRow(db.members, m, t, db.teams[t].owner)
    ensures forall n :: n in db.members && db.members[n].team == t && db.members[n].user == db.teams[t].owner ==> n == m
  {
    hide SlugsOk, RolesOk, AllPresent, Mirror, HoldsOk, ProductRolesOk, TeamsOk;
    m :| SoundRow(db.members, m, t, db.teams[t].owner);
  }

  lemma InFlightKeepsRow(db: Db, op: Op, t: TeamId, m: MemberId)
    requires Inv(db) && OwnerSafe(db, op) && t in db.teams && SoundRow(db.members, m, t, db.teams[t].owner)
    ensures m in Apply(db, op).members || t !in Apply(db, op).teams
  {
    hide Inv, Apply;
    if op.OpCreateTeam? {
      CreateTeamAdds(db, op);
    } else {
      SafeStatementKeepsOwners(db, op);
    }
  }

  lemma CreateTeamAdds(db: Db, op: Op)
    requires op.OpCreateTeam?
    ensures db.members.Keys <= Apply(db, op).members.Keys
  {
  }
}
