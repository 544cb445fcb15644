// Personal access tokens for git: creation, server-minted repo-scoped tokens,
// revocation, and the exchange into short-lived JWTs.  The exchange resolves the
// token in one statement and signs later, so anything may happen in between.

module GitCredentials {
  import opened Prelude

  type UserId = nat
  type PatId = nat
  type RepoId = nat

  const EXCHANGE_TOKEN_TTL_SECONDS: nat := 15 * 60
  const MAX_EPHEMERAL_PAT_TTL_SECS: nat := 6 * 3600
  const VALID_GIT_SCOPES: seq<string> := ["repo:read", "repo:write"]

  datatype Pat = Pat(user: UserId, hash: string, scopes: seq<string>, createdAt: nat, expiresAt: Option<nat>,
                     repo: Option<RepoId>, revokedAt: Option<nat>)

  datatype Tables = Tables(users: set<UserId>, pats: map<PatId, Pat>)

  // ── Validation ────────────────────────────────────────────────────────────

  function ValidateTtl(ttl: int): Result<nat> {
    if ttl <= 0 || ttl > MAX_EPHEMERAL_PAT_TTL_SECS then Err(Validation) else Ok(ttl)
  }

  predicate ScopesOk(scopes: seq<string>) { scopes != [] && forall i :: 0 <= i < |scopes| ==> scopes[i] in VALID_GIT_SCOPES }

  function ValidateScopes(requested: Option<seq<string>>): Result<seq<string>> {
    var scopes := if requested.Some? then requested.value else VALID_GIT_SCOPES;
    if ScopesOk(scopes) then Ok(scopes) else Err(Validation)
  }

  // ── Statements ────────────────────────────────────────────────────────────

  predicate HashTaken(pats: map<PatId, Pat>, hash: string) { exists i :: i in pats && pats[i].hash == hash }

  function InsertPat(t: Tables, id: PatId, row: Pat): (Tables, Result<PatId>) {
    if id in t.pats || HashTaken(t.pats, row.hash) then (t, Err(Conflict))
    else if row.user !in t.users then (t, Err(Database))
    else (t.(pats := t.pats[id := row]), Ok(id))
  }

  function RevokePat(t: Tables, user: UserId, id: PatId, now: nat): (Tables, Result<()>) {
    if id in t.pats && t.pats[id].user == user && t.pats[id].revokedAt.None?
    then (t.(pats := t.pats[id := t.pats[id].(revokedAt := Some(now))]), Ok(()))
    else (t, Err(NotFound))
  }

  predicate Active(p: Pat, now: nat) { p.revokedAt.None? && (p.expiresAt.None? || p.expiresAt.value > now) }

  predicate Resolvable(t: Tables, hash: string, now: nat) {
    exists i :: i in t.pats && t.pats[i].hash == hash && Active(t.pats[i], now)
  }

  predicate HashesUnique(pats: map<PatId, Pat>) { forall i, j :: i in pats && j in pats && pats[i].hash == pats[j].hash ==> i == j }

  /** `get_active_pat_by_hash`; UNIQUE(token_hash) makes the row the only one. */
  ghost function GetActive(t: Tables, hash: string, now: nat): (r: Result<PatId>)
    ensures r.Ok? <==> Resolvable(t, hash, now)
    ensures r.Ok? ==> r.value in t.pats && t.pats[r.value].hash == hash && Active(t.pats[r.value], now)
  {
    if Resolvable(t, hash, now) then
      var i :| i in t.pats && t.pats[i].hash == hash && Active(t.pats[i], now);
      Ok(i)
    else Err(InvalidToken)
  }

  /** ON DELETE CASCADE; here any user can go, although the team tables or the audit log may refuse it. */
  function DeleteUser(t: Tables, user: UserId): Tables {
    Tables(t.users - {user}, map i | i in t.pats && t.pats[i].user != user :: t.pats[i])
  }

  // ── Handlers ──────────────────────────────────────────────────────────────

  /** `create_pat`: `days` is the requested lifetime, absent for none. */
  function CreatePat(t: Tables, id: PatId, user: UserId, hash: string, scopes: Option<seq<string>>, days: Option<int>, now: nat)
    : (Tables, Result<PatId>)
  {
    var valid := ValidateScopes(scopes);
    if valid.Err? then (t, Err(valid.error))
    else if days.Some? && days.value <= 0 then (t, Err(Validation))
    else InsertPat(t, id, Pat(user, hash, valid.value, now, if days.Some? then Some(now + days.value * DAY) else None, None, None))
  }

  function MintEphemeralPat(t: Tables, id: PatId, user: UserId, repo: RepoId, hash: string, scopes: Option<seq<string>>,
                            ttl: int, now: nat)
    : (Tables, Result<PatId>)
  {
    var seconds := ValidateTtl(ttl);
    if seconds.Err? then (t, Err(seconds.error))
    else
      var valid := ValidateScopes(Some(if scopes.Some? then scopes.value else ["repo:read"]));
      if valid.Err? then (t, Err(valid.error))
      else if user !in t.users then (t, Err(NotFound))
      else InsertPat(t, id, Pat(user, hash, valid.value, now, Some(now + seconds.value * SECOND), Some(repo), None))
  }

  datatype Resolved = Resolved(id: PatId, user: UserId, scopes: seq<string>, repo: Option<RepoId>, at: nat)

  datatype Jwt = Jwt(pat: PatId, user: UserId, scopes: seq<string>, repo: Option<RepoId>, resource: string,
                     resolvedAt: nat, signedAt: nat, expSeconds: nat)

  /**
   * `born` and `endedAt` are history: every row as it was inserted, and when it
   * was revoked or deleted with its user.
   */
  datatype World = World(clock: nat, db: Tables, inFlight: map<nat, (Resolved, string)>, jwts: seq<Jwt>,
                         born: map<PatId, Pat>, endedAt: map<PatId, nat>)

  datatype Event =
    | Tick(dt: nat)
    | AddUser(user: UserId)
    | RemoveUser(user: UserId)
    | Create(id: PatId, user: UserId, hash: string, scopes: Option<seq<string>>, days: Option<int>)
    | Mint(id: PatId, user: UserId, repo: RepoId, hash: string, scopes: Option<seq<string>>, ttl: int)
    | Revoke(user: UserId, id: PatId)
    | Resolve(h: nat, credential: string, resource: string)
    | Sign(h: nat)
    | Abandon(h: nat)

  /** A drawn row id is never one drawn before. */
  function Record(w: World, id: PatId, after: (Tables, Result<PatId>)): World {
    if after.1.Err? || id in w.born || id !in after.0.pats then w
    else w.(db := after.0, born := w.born[id := after.0.pats[id]])
  }

  /** `resource.trim().is_empty()` */
  predicate Blank(s: string) { forall i :: 0 <= i < |s| ==> s[i] in " \t\r\n" }

  ghost function ResolveStep(sha256Hex: string -> string, w: World, h: nat, credential: string, resource: string): World {
    var r := GetActive(w.db, sha256Hex(credential), w.clock);
    if h in w.inFlight || Blank(resource) || r.Err? then w
    else
      var p := w.db.pats[r.value];
      w.(inFlight := w.inFlight[h := (Resolved(r.value, p.user, p.scopes, p.repo, w.clock), resource)])
  }

  function SignStep(w: World, h: nat): World
    requires h in w.inFlight
  {
    var (x, resource) := w.inFlight[h];
    var w1 := w.(inFlight := w.inFlight - {h});
    if x.user !in w.db.users then w1
    else w1.(jwts := w.jwts + [Jwt(x.id, x.user, x.scopes, x.repo, resource, x.at, w.clock,
                                   ClaimSeconds(w.clock, EXCHANGE_TOKEN_TTL_SECONDS))])
  }

  ghost function Step(sha256Hex: string -> string, w: World, e: Event): World {
    match e
    case Tick(dt) => w.(clock := w.clock + dt)
    case AddUser(u) => w.(db := w.db.(users := w.db.users + {u}))
    case RemoveUser(u) =>
      w.(db := DeleteUser(w.db, u),
         endedAt := (map i | i in w.db.pats && w.db.pats[i].user == u :: w.clock) + w.endedAt)
    case Create(id, u, hash, scopes, days) => Record(w, id, CreatePat(w.db, id, u, hash, scopes, days, w.clock))
    case Mint(id, u, repo, hash, scopes, ttl) => Record(w, id, MintEphemeralPat(w.db, id, u, repo, hash, scopes, ttl, w.clock))
    case Revoke(u, id) =>
      var (t, r) := RevokePat(w.db, u, id, w.clock);
      if r.Ok? then w.(db := t, endedAt := map[id := w.clock] + w.endedAt) else w
    case Resolve(h, credential, resource) => ResolveStep(sha256Hex, w, h, credential, resource)
    case Sign(h) => if h in w.inFlight then SignStep(w, h) else w
    case Abandon(h) => w.(inFlight := w.inFlight - {h})
  }

  ghost function Run(sha256Hex: string -> string, w: World, es: seq<Event>): World
    decreases |es|
  {
    if es == [] then w else Run(sha256Hex, Step(sha256Hex, w, es[0]), es[1..])
  }

  const START: World := World(0, Tables({}, map[]), map[], [], map[], map[])

  // ── The invariant ─────────────────────────────────────────────────────────

  /** What a row may look like when inserted. */
  predicate BornOk(p: Pat) {
    && ScopesOk(p.scopes)
    && (p.repo.Some? ==> p.expiresAt.Some? && p.expiresAt.value <= p.createdAt + MAX_EPHEMERAL_PAT_TTL_SECS * SECOND)
  }

  /** A stored row is its inserted self, but for the revocation. */
  ghost predicate Stored(pats: map<PatId, Pat>, born: map<PatId, Pat>) {
    forall i :: i in pats ==> i in born && pats[i].(revokedAt := None) == born[i]
  }

  /** A row is unrevoked exactly while no end is recorded; a row that is gone has one. */
  ghost predicate Marked(pats: map<PatId, Pat>, born: map<PatId, Pat>, endedAt: map<PatId, nat>) {
    && (forall i :: i in pats ==> (pats[i].revokedAt.None? <==> i !in endedAt))
    && (forall i :: i in born && i !in pats ==> i in endedAt)
    && endedAt.Keys <= born.Keys
  }

  ghost predicate RowsOk(w: World) {
    && HashesUnique(w.db.pats)
    && (forall i :: i in w.born ==> BornOk(w.born[i]))
    && Stored(w.db.pats, w.born)
    && Marked(w.db.pats, w.born, w.endedAt)
  }

  /** A resolution at time `at` was made of the row as inserted, before its expiry and not after its end. */
  ghost predicate SoundResolution(born: map<PatId, Pat>, endedAt: map<PatId, nat>, id: PatId, user: UserId,
                                  scopes: seq<string>, repo: Option<RepoId>, at: nat) {
    && id in born
    && born[id].user == user && born[id].scopes == scopes && born[id].repo == repo
    && (born[id].expiresAt.Some? ==> at < born[id].expiresAt.value)
    && (id in endedAt ==> at <= endedAt[id])
  }

  ghost predicate FlightOk(w: World, h: nat)
    requires h in w.inFlight
  {
    var x := w.inFlight[h].0;
    SoundResolution(w.born, w.endedAt, x.id, x.user, x.scopes, x.repo, x.at) && x.at <= w.clock
  }

  ghost predicate JwtOk(w: World, j: Jwt) {
    && SoundResolution(w.born, w.endedAt, j.pat, j.user, j.scopes, j.repo, j.resolvedAt)
    && j.resolvedAt <= j.signedAt
    && j.expSeconds * SECOND <= j.signedAt + EXCHANGE_TOKEN_TTL_SECONDS * SECOND
  }

  ghost predicate WorldOk(w: World) {
    && RowsOk(w)
    && (forall h :: h in w.inFlight ==> FlightOk(w, h))
    && (forall i :: 0 <= i < |w.jwts| ==> JwtOk(w, w.jwts[i]))
  }

  /** Rows are only ever added to `born`, and an end, once recorded or recorded now, never precedes a resolution. */
  ghost predicate HistoryGrows(w: World, v: World) {
    && (forall i :: i in w.born ==> i in v.born && v.born[i] == w.born[i])
    && (forall i :: i in w.endedAt ==> i in v.endedAt && v.endedAt[i] == w.endedAt[i])
    && (forall i :: i in v.endedAt && i !in w.endedAt ==> v.endedAt[i] == w.clock)
    && w.clock <= v.clock
  }

  lemma SoundStays(w: World, v: World, id: PatId, user: UserId, scopes: seq<string>, repo: Option<RepoId>, at: nat)
    requires HistoryGrows(w, v) && SoundResolution(w.born, w.endedAt, id, user, scopes, repo, at) && at <= w.clock
    ensures SoundResolution(v.born, v.endedAt, id, user, scopes, repo, at)
  {
  }

  lemma InsertedRow(t: Tables, id: PatId, row: Pat)
    requires HashesUnique(t.pats)
    ensures var (u, r) := InsertPat(t, id, row);
            r.Ok? ==> id !in t.pats && u.pats == t.pats[id := row] && HashesUnique(u.pats)
  {
  }

  lemma RecordedRow(pats: map<PatId, Pat>, born: map<PatId, Pat>, endedAt: map<PatId, nat>, id: PatId, row: Pat)
    requires Stored(pats, born) && Marked(pats, born, endedAt) && id !in born && row.revokedAt.None?
    ensures Stored(pats[id := row], born[id := row]) && Marked(pats[id := row], born[id := row], endedAt)
  {
  }

  lemma RecordKeepsRows(w: World, id: PatId, row: Pat)
    requires RowsOk(w) && BornOk(row) && row.revokedAt.None?
    ensures var v := Record(w, id, InsertPat(w.db, id, row)); RowsOk(v) && HistoryGrows(w, v)
  {
    hide HashesUnique, BornOk, HashTaken, Stored, Marked;
    InsertedRow(w.db, id, row);
    if id !in w.born { RecordedRow(w.db.pats, w.born, w.endedAt, id, row); }
  }

  lemma CreateKeepsRows(w: World, e: Event)
    requires RowsOk(w) && (e.Create? || e.Mint?)
    ensures var v := Step(h => h, w, e); RowsOk(v) && HistoryGrows(w, v) && v.inFlight == w.inFlight && v.jwts == w.jwts
  {
    hide HashesUnique, RowsOk, HistoryGrows, InsertPat;
    HistoryGrowsItself(w);
    match e
    case Create(id, u, hash, scopes, days) =>
      var valid := ValidateScopes(scopes);
      if valid.Ok? && !(days.Some? && days.value <= 0) {
        var expires := if days.Some? then Some(w.clock + days.value * DAY) else None;
        RecordKeepsRows(w, id, Pat(u, hash, valid.value, w.clock, expires, None, None));
      }
    case Mint(id, u, repo, hash, scopes, ttl) =>
      var seconds := ValidateTtl(ttl);
      var valid := ValidateScopes(Some(if scopes.Some? then scopes.value else ["repo:read"]));
      if seconds.Ok? && valid.Ok? && u in w.db.users {
        RecordKeepsRows(w, id, Pat(u, hash, valid.value, w.clock, Some(w.clock + seconds.value * SECOND), Some(repo), None));
      }
  }

  lemma HistoryGrowsItself(w: World)
    ensures HistoryGrows(w, w)
  {
  }

  lemma SameRowsOk(a: map<PatId, Pat>, b: map<PatId, Pat>, born: map<PatId, Pat>)
    requires HashesUnique(a) && Stored(a, born)
    requires forall i :: i in b ==> i in a && b[i].(revokedAt := None) == a[i].(revokedAt := None)
    ensures HashesUnique(b) && Stored(b, born)
  {
    assert forall i :: i in b ==> i in a && b[i].hash == a[i].hash;
  }

  lemma RemovedMarked(pats: map<PatId, Pat>, born: map<PatId, Pat>, endedAt: map<PatId, nat>, u: UserId, now: nat)
    requires Stored(pats, born) && Marked(pats, born, endedAt)
    ensures Marked(map i | i in pats && pats[i].user != u :: pats[i], born,
                   (map i | i in pats && pats[i].user == u :: now) + endedAt)
  {
  }

  lemma RevokedMarked(pats: map<PatId, Pat>, born: map<PatId, Pat>, endedAt: map<PatId, nat>, id: PatId, now: nat)
    requires Stored(pats, born) && Marked(pats, born, endedAt) && id in pats
    ensures Marked(pats[id := pats[id].(revokedAt := Some(now))], born, map[id := now] + endedAt)
  {
  }

  lemma RemoveUserKeepsRows(w: World, u: UserId)
    requires RowsOk(w)
    ensures var v := Step(h => h, w, RemoveUser(u)); RowsOk(v) && HistoryGrows(w, v)
  {
    hide BornOk, HashesUnique, Stored, Marked;
    SameRowsOk(w.db.pats, Step(h => h, w, RemoveUser(u)).db.pats, w.born);
    RemovedMarked(w.db.pats, w.born, w.endedAt, u, w.clock);
  }

  lemma RevokeKeepsRows(w: World, u: UserId, id: PatId)
    requires RowsOk(w)
    ensures var v := Step(h => h, w, Revoke(u, id)); RowsOk(v) && HistoryGrows(w, v)
  {
    hide BornOk, HashesUnique, Stored, Marked;
    SameRowsOk(w.db.pats, Step(h => h, w, Revoke(u, id)).db.pats, w.born);
    if id in w.db.pats { RevokedMarked(w.db.pats, w.born, w.endedAt, id, w.clock); }
  }

  lemma EndsKeepRows(w: World, e: Event)
    requires RowsOk(w) && (e.RemoveUser? || e.Revoke? || e.Tick? || e.AddUser?)
    ensures var v := Step(h => h, w, e); RowsOk(v) && HistoryGrows(w, v) && v.inFlight == w.inFlight && v.jwts == w.jwts
  {
    match e
    case RemoveUser(u) => RemoveUserKeepsRows(w, u); hide RowsOk, HistoryGrows;
    case Revoke(u, id) => RevokeKeepsRows(w, u, id); hide RowsOk, HistoryGrows;
    case _ => hide BornOk, HashesUnique;
  }

  lemma RowEventKeepsWorld(w: World, v: World)
    requires WorldOk(w) && RowsOk(v) && HistoryGrows(w, v) && v.inFlight == w.inFlight && v.jwts == w.jwts
    requires forall i :: 0 <= i < |w.jwts| ==> w.jwts[i].resolvedAt <= w.clock
    ensures WorldOk(v)
  {
    hide RowsOk, HistoryGrows, SoundResolution;
    forall h | h in v.inFlight ensures FlightOk(v, h) {
      var x := w.inFlight[h].0;
      assert FlightOk(w, h);
      SoundStays(w, v, x.id, x.user, x.scopes, x.repo, x.at);
      assert v.clock >= w.clock by { ClockGrows(w, v); }
    }
    forall i | 0 <= i < |v.jwts| ensures JwtOk(v, v.jwts[i]) {
      var j := w.jwts[i];
      assert JwtOk(w, j);
      SoundStays(w, v, j.pat, j.user, j.scopes, j.repo, j.resolvedAt);
    }
  }

  lemma ClockGrows(w: World, v: World)
    requires HistoryGrows(w, v)
    ensures w.clock <= v.clock
  {
  }

  lemma ResolveKeepsWorld(sha256Hex: string -> string, w: World, h: nat, credential: string, resource: string)
    requires WorldOk(w)
    ensures WorldOk(ResolveStep(sha256Hex, w, h, credential, resource))
  {
    hide HashesUnique, BornOk;
    var v := ResolveStep(sha256Hex, w, h, credential, resource);
    if v != w {
      var x := v.inFlight[h].0;
      assert w.db.pats[x.id].(revokedAt := None) == w.born[x.id];
      forall k | k in v.inFlight ensures FlightOk(v, k) {
        if k != h { assert FlightOk(w, k); }
      }
      forall i | 0 <= i < |v.jwts| ensures JwtOk(v, v.jwts[i]) { assert JwtOk(w, w.jwts[i]); }
    }
  }

  lemma SignKeepsWorld(w: World, h: nat)
    requires WorldOk(w) && h in w.inFlight
    ensures WorldOk(SignStep(w, h))
  {
    hide RowsOk, SoundResolution;
    var v := SignStep(w, h);
    assert FlightOk(w, h);
    assert RowsOk(v) by { SameRows(w, v); }
    forall k | k in v.inFlight ensures FlightOk(v, k) { assert FlightOk(w, k); }
    forall i | 0 <= i < |v.jwts| ensures JwtOk(v, v.jwts[i]) {
      if i < |w.jwts| { assert JwtOk(w, w.jwts[i]); }
    }
  }

  lemma SameRows(w: World, v: World)
    requires RowsOk(w) && v.db == w.db && v.born == w.born && v.endedAt == w.endedAt
    ensures RowsOk(v)
  {
  }

  ghost predicate Past(w: World) { forall i :: 0 <= i < |w.jwts| ==> w.jwts[i].signedAt <= w.clock }

  lemma StepKeepsWorld(sha256Hex: string -> string, w: World, e: Event)
    requires WorldOk(w) && Past(w)
    ensures WorldOk(Step(sha256Hex, w, e)) && Past(Step(sha256Hex, w, e))
  {
    hide RowsOk, HistoryGrows;
    var v := Step(sha256Hex, w, e);
    assert forall i :: 0 <= i < |w.jwts| ==> JwtOk(w, w.jwts[i]);
    match e
    case Resolve(h, c, r) => ResolveKeepsWorld(sha256Hex, w, h, c, r);
    case Sign(h) => if h in w.inFlight { SignKeepsWorld(w, h); }
    case Abandon(h) => AbandonKeepsWorld(w, h);
    case Create(_, _, _, _, _) => CreateKeepsRows(w, e); RowEventKeepsWorld(w, v);
    case Mint(_, _, _, _, _, _) => CreateKeepsRows(w, e); RowEventKeepsWorld(w, v);
    case _ => EndsKeepRows(w, e); RowEventKeepsWorld(w, v);
  }

  lemma AbandonKeepsWorld(w: World, h: nat)
    requires WorldOk(w)
    ensures WorldOk(w.(inFlight := w.inFlight - {h}))
  {
    var v := w.(inFlight := w.inFlight - {h});
    SameRows(w, v);
    forall k | k in v.inFlight ensures FlightOk(v, k) { assert FlightOk(w, k); }
    forall i | 0 <= i < |v.jwts| ensures JwtOk(v, v.jwts[i]) { assert JwtOk(w, w.jwts[i]); }
  }

  lemma {:induction false} RunKeepsWorld(sha256Hex: string -> string, w: World, es: seq<Event>)
    requires WorldOk(w) && Past(w)
    ensures WorldOk(Run(sha256Hex, w, es)) && Past(Run(sha256Hex, w, es))
    decreases |es|
  {
    hide WorldOk, Past, Step;
    if es != [] {
      StepKeepsWorld(sha256Hex, w, es[0]);
      RunKeepsWorld(sha256Hex, Step(sha256Hex, w, es[0]), es[1..]);
    }
  }

  lemma StartOk()
    ensures WorldOk(START) && Past(START)
  {
  }

  // ── What every run guarantees ─────────────────────────────────────────────

  /**
   * Every JWT was resolved strictly before its token's expiry and not after its
   * revocation or deletion, and expires within 900 s of either — plus whatever
   * time the request spent between resolving and signing.
   */
  lemma JwtOutlivesPatBriefly(sha256Hex: string -> string, es: seq<Event>, i: nat)
    requires i < |Run(sha256Hex, START, es).jwts|
    ensures var w := Run(sha256Hex, START, es);
            var j := w.jwts[i];
            var delay := j.signedAt - j.resolvedAt;
            && j.pat in w.born
            && (j.pat in w.endedAt ==>
                  (j.resolvedAt <= w.endedAt[j.pat] &&
                   j.expSeconds * SECOND <= w.endedAt[j.pat] + delay + EXCHANGE_TOKEN_TTL_SECONDS * SECOND))
            && (w.born[j.pat].expiresAt.Some? ==>
                  (j.resolvedAt < w.born[j.pat].expiresAt.value &&
                   j.expSeconds * SECOND < w.born[j.pat].expiresAt.value + delay + EXCHANGE_TOKEN_TTL_SECONDS * SECOND))
  {
    hide Run, RowsOk;
    StartOk();
    RunKeepsWorld(sha256Hex, START, es);
    var w := Run(sha256Hex, START, es);
    assert JwtOk(w, w.jwts[i]);
  }

  /**
   * A JWT carries its token's user, scopes and repository.  From a repo-scoped
   * token it expires within 21600 + 900 s of that token's minting (plus the delay).
   */
  lemma JwtCarriesItsPat(sha256Hex: string -> string, es: seq<Event>, i: nat)
    requires i < |Run(sha256Hex, START, es).jwts|
    ensures var w := Run(sha256Hex, START, es);
            var j := w.jwts[i];
            && j.pat in w.born
            && (j.user, j.scopes, j.repo) == (w.born[j.pat].user, w.born[j.pat].scopes, w.born[j.pat].repo)
            && ScopesOk(j.scopes)
            && (j.repo.Some? ==>
                  (var bound := (MAX_EPHEMERAL_PAT_TTL_SECS + EXCHANGE_TOKEN_TTL_SECONDS) * SECOND;
                   j.expSeconds * SECOND < w.born[j.pat].createdAt + (j.signedAt - j.resolvedAt) + bound))
  {
    hide Run, ScopesOk;
    StartOk();
    RunKeepsWorld(sha256Hex, START, es);
    var w := Run(sha256Hex, START, es);
    assert JwtOk(w, w.jwts[i]);
    assert BornOk(w.born[w.jwts[i].pat]);
  }

  /** An exchange resolves exactly while the row is there, unrevoked and unexpired; an ended row never resolves again. */
  lemma EndedNeverResolves(sha256Hex: string -> string, es: seq<Event>, credential: string, id: PatId)
    requires var w := Run(sha256Hex, START, es);
             id in w.born && w.born[id].hash == sha256Hex(credential) &&
             (id in w.endedAt || (w.born[id].expiresAt.Some? && w.born[id].expiresAt.value <= w.clock))
    ensures var w := Run(sha256Hex, START, es);
            var r := GetActive(w.db, sha256Hex(credential), w.clock);
            r.Ok? ==> r.value != id
    ensures var w := Run(sha256Hex, START, es);
            id in w.db.pats ==> GetActive(w.db, sha256Hex(credential), w.clock) == Err(InvalidToken)
  {
    hide Run, BornOk;
    RunKeepsWorld(sha256Hex, START, es);
    var w := Run(sha256Hex, START, es);
    if id in w.db.pats {
      assert w.db.pats[id].(revokedAt := None) == w.born[id];
      assert !Active(w.db.pats[id], w.clock);
    }
  }

  // ── Requests that run without waiting ─────────────────────────────────────

  /** The clock moves only while no exchange is between its two statements. */
  ghost predicate ClockWaits(sha256Hex: string -> string, w: World, es: seq<Event>)
    decreases |es|
  {
    es == [] || ((es[0].Tick? ==> w.inFlight == map[]) && ClockWaits(sha256Hex, Step(sha256Hex, w, es[0]), es[1..]))
  }

  ghost predicate Prompt(w: World) {
    && (forall h :: h in w.inFlight ==> w.inFlight[h].0.at == w.clock)
    && (forall i :: 0 <= i < |w.jwts| ==> w.jwts[i].resolvedAt == w.jwts[i].signedAt)
  }

  lemma PromptStep(sha256Hex: string -> string, w: World, e: Event)
    requires Prompt(w) && (e.Tick? ==> w.inFlight == map[])
    ensures Prompt(Step(sha256Hex, w, e))
  {
  }

  lemma {:induction false} PromptRun(sha256Hex: string -> string, w: World, es: seq<Event>)
    requires Prompt(w) && ClockWaits(sha256Hex, w, es)
    ensures Prompt(Run(sha256Hex, w, es))
    decreases |es|
  {
    hide Prompt, Step;
    if es != [] {
      PromptStep(sha256Hex, w, es[0]);
      PromptRun(sha256Hex, Step(sha256Hex, w, es[0]), es[1..]);
    }
  }

  /** With exchanges as single steps, the bounds are exactly 900 s and 21600 + 900 s. */
  lemma AtomicBounds(sha256Hex: string -> string, es: seq<Event>, i: nat)
    requires ClockWaits(sha256Hex, START, es) && i < |Run(sha256Hex, START, es).jwts|
    ensures var w := Run(sha256Hex, START, es);
            var j := w.jwts[i];
            && j.pat in w.born
            && (j.pat in w.endedAt ==> j.expSeconds * SECOND <= w.endedAt[j.pat] + EXCHANGE_TOKEN_TTL_SECONDS * SECOND)
            && (w.born[j.pat].expiresAt.Some? ==>
                  j.expSeconds * SECOND < w.born[j.pat].expiresAt.value + EXCHANGE_TOKEN_TTL_SECONDS * SECOND)
            && (j.repo.Some? ==>
                  j.expSeconds * SECOND < w.born[j.pat].createdAt + (MAX_EPHEMERAL_PAT_TTL_SECS + EXCHANGE_TOKEN_TTL_SECONDS) * SECOND)
  {
    hide Run, ClockWaits;
    PromptRun(sha256Hex, START, es);
    JwtOutlivesPatBriefly(sha256Hex, es, i);
    JwtCarriesItsPat(sha256Hex, es, i);
  }

  // ── In place ──────────────────────────────────────────────────────────────

  class PatTable {
    var users: set<UserId>
    var pats: map<PatId, Pat>

    function Rows(): Tables
      reads this
    {
      Tables(users, pats)
    }

    constructor (t: Tables)
      ensures Rows() == t
    {
      users, pats := t.users, t.pats;
    }

    method Insert(id: PatId, row: Pat) returns (r: Result<PatId>)
      modifies this`pats
      ensures (Rows(), r) == InsertPat(old(Rows()), id, row)
    {
      if id in pats || HashTaken(pats, row.hash) { return Err(Conflict); }
      if row.user !in users { return Err(Database); }
      pats := pats[id := row];
      return Ok(id);
    }

    method Revoke(user: UserId, id: PatId, now: nat) returns (r: Result<()>)
      modifies this`pats
      ensures (Rows(), r) == RevokePat(old(Rows()), user, id, now)
      ensures r.Ok? ==> !Active(pats[id], now)
    {
      if id !in pats || pats[id].user != user || pats[id].revokedAt.Some? { return Err(NotFound); }
      pats := pats[id := pats[id].(revokedAt := Some(now))];
      return Ok(());
    }

    method MintEphemeral(id: PatId, user: UserId, repo: RepoId, hash: string, scopes: Option<seq<string>>, ttl: int, now: nat)
      returns (r: Result<PatId>)
      modifies this`pats
      ensures (Rows(), r) == MintEphemeralPat(old(Rows()), id, user, repo, hash, scopes, ttl, now)
      ensures r.Ok? ==> id in pats && pats[id].repo == Some(repo) && Active(pats[id], now) &&
                        !Active(pats[id], now + MAX_EPHEMERAL_PAT_TTL_SECS * SECOND)
    {
      var seconds := ValidateTtl(ttl);
      if seconds.Err? { return Err(seconds.error); }
      var valid := ValidateScopes(Some(if scopes.Some? then scopes.value else ["repo:read"]));
      if valid.Err? { return Err(valid.error); }
      if user !in users { return Err(NotFound); }
      r := Insert(id, Pat(user, hash, valid.value, now, Some(now + seconds.value * SECOND), Some(repo), None));
    }

    /** The lookup the exchange starts with. */
    method Resolve(hash: string, now: nat) returns (r: Result<Resolved>)
      requires HashesUnique(pats)
      ensures r.Ok? <==> Resolvable(Rows(), hash, now)
      ensures r.Ok? ==> r.value.id in pats && GetActive(Rows(), hash, now) == Ok(r.value.id) &&
                        r.value == Resolved(r.value.id, pats[r.value.id].user, pats[r.value.id].scopes, pats[r.value.id].repo, now)
      ensures r.Err? ==> r.error == InvalidToken
    {
      if !Resolvable(Rows(), hash, now) { return Err(InvalidToken); }
      var i :| i in pats && pats[i].hash == hash && Active(pats[i], now);
      return Ok(Resolved(i, pats[i].user, pats[i].scopes, pats[i].repo, now));
    }
  }
}
