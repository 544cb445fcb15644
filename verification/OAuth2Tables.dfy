// The OAuth2 tables of src/db/oauth2.rs and the SQL statements on them.
//
// `Tables` is the value of the tables; each statement has a specification
// function on that value, and the class `AuthTables` performs the statements
// in place.  `now` stands for the clock reading (`NOW()` or `Utc::now()`) and
// freshly drawn random strings are arguments; a primary-key or foreign-key
// violation is the error the statement returns.

module OAuth2Tables {
  import opened Prelude

  type UserId = nat

  /** `secretHash` and `serviceUser` are set for confidential service clients only. */
  datatype Client = Client(redirectUris: seq<string>, allowedScopes: seq<string>,
                           secretHash: Option<string>, serviceUser: Option<UserId>)

  datatype AuthCode = AuthCode(clientId: string, userId: UserId, redirectUri: string, scope: string,
                               resource: string, challenge: string, expiresAt: nat, usedAt: Option<nat>)

  datatype RefreshToken = RefreshToken(clientId: string, userId: UserId, scope: string, resource: string,
                                       expiresAt: nat, rotatedAt: Option<nat>)

  /**
   * `audited`: the users whom a row of oauth2_audit_log names.  Nothing updates or
   * deletes those rows, and their reference to `users` has no ON DELETE action.
   */
  datatype Tables = Tables(users: set<UserId>, clients: map<string, Client>,
                           codes: map<string, AuthCode>, tokens: map<string, RefreshToken>, audited: set<UserId>)

  // ── Clients and users ─────────────────────────────────────────────────────

  function RegisterClient(t: Tables, clientId: string, uris: seq<string>, scopes: seq<string>): (Tables, Result<()>) {
    if clientId in t.clients then (t, Err(Conflict))
    else (t.(clients := t.clients[clientId := Client(uris, scopes, None, None)]), Ok(()))
  }

  function CreateServiceClient(t: Tables, clientId: string, scopes: seq<string>, user: UserId, secretHash: string)
    : (Tables, Result<()>)
  {
    if clientId in t.clients then (t, Err(Conflict))
    else if user !in t.users then (t, Err(Database))
    else (t.(clients := t.clients[clientId := Client([], scopes, Some(secretHash), Some(user))]), Ok(()))
  }

  predicate IsServiceClient(c: Client) { c.secretHash.Some? && c.serviceUser.Some? }

  /** Deleting client rows takes their codes and refresh tokens with them (ON DELETE CASCADE). */
  function DropClients(t: Tables, gone: set<string>): Tables {
    t.(clients := t.clients - gone,
       codes := map c | c in t.codes && t.codes[c].clientId !in gone :: t.codes[c],
       tokens := map h | h in t.tokens && t.tokens[h].clientId !in gone :: t.tokens[h])
  }

  /** `owner` restricts the deletion to the caller's own client, as the self-service endpoint does. */
  function DeleteServiceClient(t: Tables, clientId: string, owner: Option<UserId>): (Tables, Result<()>) {
    if clientId in t.clients && t.clients[clientId].secretHash.Some? &&
       (owner.None? || t.clients[clientId].serviceUser == owner)
    then (DropClients(t, {clientId}), Ok(()))
    else (t, Err(NotFound))
  }

  /** Deleting a user, where no audit row forbids it, cascades to their service clients, codes and refresh tokens. */
  function DeleteUser(t: Tables, user: UserId): Tables {
    var t1 := DropClients(t, set c | c in t.clients && t.clients[c].serviceUser == Some(user));
    t1.(users := t1.users - {user},
        codes := map c | c in t1.codes && t1.codes[c].userId != user :: t1.codes[c],
        tokens := map h | h in t1.tokens && t1.tokens[h].userId != user :: t1.tokens[h])
  }

  // ── Authorization codes ───────────────────────────────────────────────────

  function CreateAuthCode(t: Tables, code: string, row: AuthCode, now: nat, ttlMinutes: nat): (Tables, Result<()>) {
    if code in t.codes || row.clientId !in t.clients || row.userId !in t.users then (t, Err(Database))
    else (t.(codes := t.codes[code := row.(expiresAt := now + ttlMinutes * MINUTE, usedAt := None)]), Ok(()))
  }

  predicate Exchangeable(t: Tables, code: string, now: nat) {
    code in t.codes && t.codes[code].usedAt.None? && t.codes[code].expiresAt > now
  }

  function ConsumeAuthCode(t: Tables, code: string, now: nat): (Tables, Result<AuthCode>) {
    if Exchangeable(t, code, now)
    then (t.(codes := t.codes[code := t.codes[code].(usedAt := Some(now))]), Ok(t.codes[code]))
    else (t, Err(InvalidToken))
  }

  // ── Refresh tokens ────────────────────────────────────────────────────────

  function CreateRefreshToken(t: Tables, hash: string, row: RefreshToken, now: nat, ttlDays: nat): (Tables, Result<()>) {
    if hash in t.tokens || row.clientId !in t.clients || row.userId !in t.users then (t, Err(Database))
    else (t.(tokens := t.tokens[hash := row.(expiresAt := now + ttlDays * DAY, rotatedAt := None)]), Ok(()))
  }

  predicate Rotatable(t: Tables, hash: string, now: nat) {
    hash in t.tokens && t.tokens[hash].rotatedAt.None? && t.tokens[hash].expiresAt > now
  }

  function RotateRefreshToken(t: Tables, hash: string, now: nat): (Tables, Result<RefreshToken>) {
    if Rotatable(t, hash, now)
    then (t.(tokens := t.tokens[hash := t.tokens[hash].(rotatedAt := Some(now))]), Ok(t.tokens[hash]))
    else (t, Err(InvalidToken))
  }

  function RevokeRefreshToken(t: Tables, hash: string, now: nat): Tables {
    if hash in t.tokens && t.tokens[hash].rotatedAt.None?
    then t.(tokens := t.tokens[hash := t.tokens[hash].(rotatedAt := Some(now))])
    else t
  }

  // ── The audit log ─────────────────────────────────────────────────────────

  /** `audit_log` with a user: a foreign-key failure is only written to the server's log. */
  function AuditLog(t: Tables, user: UserId): Tables {
    if user in t.users then t.(audited := t.audited + {user}) else t
  }

  // ── The same statements, in place ─────────────────────────────────────────

  class AuthTables {
    var users: set<UserId>
    var clients: map<string, Client>
    var codes: map<string, AuthCode>
    var tokens: map<string, RefreshToken>
    var audited: set<UserId>

    function Rows(): Tables
      reads this
    {
      Tables(users, clients, codes, tokens, audited)
    }

    constructor (t: Tables)
      ensures Rows() == t
    {
      users, clients, codes, tokens, audited := t.users, t.clients, t.codes, t.tokens, t.audited;
    }

    method InsertAuthCode(code: string, row: AuthCode, now: nat, ttlMinutes: nat) returns (r: Result<()>)
      modifies this
      ensures (Rows(), r) == CreateAuthCode(old(Rows()), code, row, now, ttlMinutes)
    {
      if code in codes || row.clientId !in clients || row.userId !in users {
        return Err(Database);
      }
      codes := codes[code := row.(expiresAt := now + ttlMinutes * MINUTE, usedAt := None)];
      return Ok(());
    }

    /** The guarded UPDATE: at most one caller ever gets the row back. */
    method UseAuthCode(code: string, now: nat) returns (r: Result<AuthCode>)
      modifies this
      ensures (Rows(), r) == ConsumeAuthCode(old(Rows()), code, now)
      ensures r.Ok? ==> !Exchangeable(Rows(), code, now)
    {
      if code !in codes || codes[code].usedAt.Some? || codes[code].expiresAt <= now {
        return Err(InvalidToken);
      }
      r := Ok(codes[code]);
      codes := codes[code := codes[code].(usedAt := Some(now))];
    }

    method InsertRefreshToken(hash: string, row: RefreshToken, now: nat, ttlDays: nat) returns (r: Result<()>)
      modifies this
      ensures (Rows(), r) == CreateRefreshToken(old(Rows()), hash, row, now, ttlDays)
    {
      if hash in tokens || row.clientId !in clients || row.userId !in users {
        return Err(Database);
      }
      tokens := tokens[hash := row.(expiresAt := now + ttlDays * DAY, rotatedAt := None)];
      return Ok(());
    }

    method Rotate(hash: string, now: nat) returns (r: Result<RefreshToken>)
      modifies this
      ensures (Rows(), r) == RotateRefreshToken(old(Rows()), hash, now)
      ensures r.Ok? ==> !Rotatable(Rows(), hash, now)
    {
      if hash !in tokens || tokens[hash].rotatedAt.Some? || tokens[hash].expiresAt <= now {
        return Err(InvalidToken);
      }
      r := Ok(tokens[hash]);
      tokens := tokens[hash := tokens[hash].(rotatedAt := Some(now))];
    }

    method Revoke(hash: string, now: nat)
      modifies this
      ensures Rows() == RevokeRefreshToken(old(Rows()), hash, now)
    {
      if hash in tokens && tokens[hash].rotatedAt.None? {
        tokens := tokens[hash := tokens[hash].(rotatedAt := Some(now))];
      }
    }

    method Audit(user: UserId)
      modifies this
      ensures Rows() == AuditLog(old(Rows()), user)
    {
      if user in users { audited := audited + {user}; }
    }
  }
}
