// Signing-key rotation: the encrypted table oauth2_signing_keys, the in-memory
// key store built from it, and the key loop that validates tokens.  DB-backed
// mode, one process, one admin call at a time; KeyOverlap.dfy lets them overlap.

module SigningKeys {
  import opened Prelude

  // ── Keys and their storage ────────────────────────────────────────────────

  /** `kid` is a truncated hash of the public half, so two different keys may share one. */
  datatype KeyPair = KeyPair(kid: string, key: nat)

  /** Symbolic AES-256-GCM: only the same key and nonce open it. */
  datatype Sealed = Sealed(kek: nat, nonce: nat, pem: string)

  datatype Row = Row(enc: Sealed, nonce: nat, isPrimary: bool, createdAt: nat, retiredAt: Option<nat>)

  /** The PEM parser and the whitespace test are parameters; `kek` is the key-encryption key of this deployment. */
  datatype Env = Env(parse: string -> Option<KeyPair>, isSpace: char -> bool, kek: nat)

  function TrimStart(space: char -> bool, s: string): (r: string)
    ensures |r| <= |s| && (r != "" ==> !space(r[0]))
  {
    if s != "" && space(s[0]) then TrimStart(space, s[1..]) else s
  }

  function TrimEnd(space: char -> bool, s: string): (r: string)
    ensures |r| <= |s| && (r != "" ==> !space(r[|r| - 1]) && r[0] == s[0])
  {
    if s != "" && space(s[|s| - 1]) then TrimEnd(space, s[..|s| - 1]) else s
  }

  function Trim(space: char -> bool, s: string): string { TrimEnd(space, TrimStart(space, s)) }

  lemma TrimIdempotent(space: char -> bool, s: string)
    ensures Trim(space, Trim(space, s)) == Trim(space, s)
  {
    var once := Trim(space, s);
    assert TrimStart(space, once) == once;
    assert TrimEnd(space, once) == once;
  }

  /** `from_pem`: `None` is its validation error. */
  function LoadPem(env: Env, pem: string): Option<KeyPair> { env.parse(Trim(env.isSpace, pem)) }

  function Encrypt(kek: nat, nonce: nat, pem: string): Sealed { Sealed(kek, nonce, pem) }

  function Decrypt(kek: nat, enc: Sealed, nonce: nat): Option<string> {
    if enc.kek == kek && enc.nonce == nonce then Some(enc.pem) else None
  }

  /** A row as startup reads it: a row that does not open is an internal error, one that does not parse a validation error. */
  function ReadRow(env: Env, row: Row): Result<KeyPair> {
    var pem := Decrypt(env.kek, row.enc, row.nonce);
    if pem.None? then Err(Internal)
    else
      var pair := LoadPem(env, pem.value);
      if pair.None? then Err(Validation) else Ok(pair.value)
  }

  /** The key a row holds, if it can be read. */
  function RowPair(env: Env, row: Row): Option<KeyPair> {
    var r := ReadRow(env, row);
    if r.Ok? then Some(r.value) else None
  }

  // ── Statements on the table ───────────────────────────────────────────────

  type Table = map<string, Row>

  function Demoted(t: Table): Table { map k | k in t :: t[k].(isPrimary := false) }

  function StoreKey(t: Table, kid: string, enc: Sealed, nonce: nat, primary: bool, now: nat): (Table, Result<()>) {
    var t1 := if primary then Demoted(t) else t;
    if kid in t1 then (t1, Err(Database)) else (t1[kid := Row(enc, nonce, primary, now, None)], Ok(()))
  }

  function PromoteKey(t: Table, kid: string): (Table, Result<()>) {
    var t1 := Demoted(t);
    if kid !in t1 then (t1, Err(NotFound)) else (t1[kid := t1[kid].(isPrimary := true)], Ok(()))
  }

  function RetireKey(t: Table, kid: string, now: nat): (Table, Result<()>) {
    if kid in t && t[kid].retiredAt.None?
    then (t[kid := t[kid].(retiredAt := Some(now), isPrimary := false)], Ok(()))
    else (t, Err(NotFound))
  }

  function ActiveKids(t: Table): set<string> { set k | k in t && t[k].retiredAt.None? }

  // ── The key store ─────────────────────────────────────────────────────────

  datatype Store = Store(keys: seq<KeyPair>, primaryKid: string)

  datatype Server = Server(table: Table, store: Store)

  /** `primary_key`: the first key with the primary kid, if any. */
  function FindKey(keys: seq<KeyPair>, kid: string): (r: Option<KeyPair>)
    ensures r.Some? <==> exists i :: 0 <= i < |keys| && keys[i].kid == kid
    ensures r.Some? ==> r.value in keys && r.value.kid == kid
  {
    if keys == [] then None else if keys[0].kid == kid then Some(keys[0]) else FindKey(keys[1..], kid)
  }

  function Without(keys: seq<KeyPair>, kid: string): (r: seq<KeyPair>)
    ensures forall k :: k in r <==> k in keys && k.kid != kid
  {
    if keys == [] then [] else (if keys[0].kid == kid then [] else [keys[0]]) + Without(keys[1..], kid)
  }

  function Generate(env: Env, s: Server, pem: string, nonce: nat, now: nat): (Server, Result<string>) {
    var pair := LoadPem(env, pem);
    if pair.None? then (s, Err(Validation))
    else
      var (t, r) := StoreKey(s.table, pair.value.kid, Encrypt(env.kek, nonce, Trim(env.isSpace, pem)), nonce, false, now);
      if r.Err? then (s.(table := t), Err(r.error))
      else (Server(t, s.store.(keys := s.store.keys + [pair.value])), Ok(pair.value.kid))
  }

  function Promote(s: Server, kid: string): (Server, Result<()>) {
    if FindKey(s.store.keys, kid).None? then (s, Err(NotFound))
    else
      var (t, r) := PromoteKey(s.table, kid);
      (Server(t, if r.Ok? then s.store.(primaryKid := kid) else s.store), r)
  }

  function Retire(s: Server, kid: string, now: nat): (Server, Result<()>) {
    if s.store.primaryKid == kid then (s, Err(Validation))
    else
      var (t, r) := RetireKey(s.table, kid, now);
      (Server(t, if r.Ok? then s.store.(keys := Without(s.store.keys, kid)) else s.store), r)
  }

  /** Active rows, newest first; rows of the same instant come in any order. */
  ghost predicate NewestFirst(t: Table, rows: seq<string>) {
    && (forall i :: 0 <= i < |rows| ==> rows[i] in ActiveKids(t))
    && (forall k :: k in ActiveKids(t) ==> k in rows)
    && (forall i, j :: 0 <= i < j < |rows| ==> rows[i] != rows[j] && t[rows[i]].createdAt >= t[rows[j]].createdAt)
  }

  /** The loop of `init_db_backed` over the rows: every key, and the last primary seen. */
  function Loaded(env: Env, t: Table, rows: seq<string>): Result<(seq<KeyPair>, Option<string>)>
    requires forall i :: 0 <= i < |rows| ==> rows[i] in t
  {
    if rows == [] then Ok(([], None))
    else
      var before := Loaded(env, t, rows[..|rows| - 1]);
      var row := t[rows[|rows| - 1]];
      if before.Err? then before
      else if ReadRow(env, row).Err? then Err(ReadRow(env, row).error)
      else
        var pair := ReadRow(env, row).value;
        Ok((before.value.0 + [pair], if row.isPrimary then Some(pair.kid) else before.value.1))
  }

  /** `init_db_backed`; `pem` is the configured first key or a freshly generated one. */
  function Startup(env: Env, t: Table, rows: seq<string>, pem: string, nonce: nat, now: nat): (Table, Result<Store>)
    requires forall i :: 0 <= i < |rows| ==> rows[i] in t
  {
    if rows == [] then
      var pair := LoadPem(env, pem);
      if pair.None? then (t, Err(Validation))
      else
        var (t1, r) := StoreKey(t, pair.value.kid, Encrypt(env.kek, nonce, Trim(env.isSpace, pem)), nonce, true, now);
        (t1, if r.Err? then Err(r.error) else Ok(Store([pair.value], pair.value.kid)))
    else
      var l := Loaded(env, t, rows);
      (t, if l.Err? then Err(l.error) else if l.value.1.None? then Err(Internal) else Ok(Store(l.value.0, l.value.1.value)))
  }

  // ── What every call keeps ─────────────────────────────────────────────────

  predicate HasKid(keys: seq<KeyPair>, kid: string) { exists i :: 0 <= i < |keys| && keys[i].kid == kid }

  predicate DistinctKids(keys: seq<KeyPair>) { forall i, j :: 0 <= i < j < |keys| ==> keys[i].kid != keys[j].kid }

  /** Each key in memory is the key of an active row. */
  predicate Held(env: Env, t: Table, keys: seq<KeyPair>) {
    forall k :: k in keys ==> k.kid in t && t[k.kid].retiredAt.None? && RowPair(env, t[k.kid]) == Some(k)
  }

  /** Memory holds exactly the active rows' keys, each once; the one primary row is active and is the primary in memory. */
  ghost predicate Agrees(env: Env, s: Server) {
    && Held(env, s.table, s.store.keys)
    && DistinctKids(s.store.keys)
    && (forall k :: k in ActiveKids(s.table) ==> HasKid(s.store.keys, k))
    && s.store.primaryKid in ActiveKids(s.table)
    && (forall k :: k in s.table ==> (s.table[k].isPrimary <==> k == s.store.primaryKid))
  }

  lemma StoredPairLoads(env: Env, pem: string, nonce: nat, row: Row)
    requires row.enc == Encrypt(env.kek, nonce, Trim(env.isSpace, pem)) && row.nonce == nonce
    ensures RowPair(env, row) == LoadPem(env, pem)
  {
    TrimIdempotent(env.isSpace, pem);
  }

  lemma GenerateAgrees(env: Env, s: Server, pem: string, nonce: nat, now: nat)
    requires Agrees(env, s)
    ensures Agrees(env, Generate(env, s, pem, nonce, now).0)
  {
    hide LoadPem, RowPair, ReadRow, Encrypt, HasKid;
    var (s', r) := Generate(env, s, pem, nonce, now);
    if r.Ok? {
      var pair := LoadPem(env, pem).value;
      StoredPairLoads(env, pem, nonce, s'.table[pair.kid]);
      HasKidSnoc(s.store.keys, pair);
      assert ActiveKids(s'.table) == ActiveKids(s.table) + {pair.kid};
      assert forall k :: k in s.store.keys ==> k.kid != pair.kid;
    }
  }

  lemma HasKidSnoc(keys: seq<KeyPair>, pair: KeyPair)
    ensures forall k :: HasKid(keys + [pair], k) <==> HasKid(keys, k) || k == pair.kid
  {
    assert (keys + [pair])[|keys|] == pair;
    forall k | HasKid(keys, k) ensures HasKid(keys + [pair], k) {
      var i :| 0 <= i < |keys| && keys[i].kid == k;
      assert (keys + [pair])[i].kid == k;
    }
  }

  lemma RowPairIgnoresFlags(env: Env, row: Row, isPrimary: bool)
    ensures RowPair(env, row.(isPrimary := isPrimary)) == RowPair(env, row)
  {
  }

  lemma PromoteAgrees(env: Env, s: Server, kid: string)
    requires Agrees(env, s)
    ensures Agrees(env, Promote(s, kid).0)
    ensures Promote(s, kid).1.Ok? <==> kid in ActiveKids(s.table)
  {
    hide RowPair, ReadRow, DistinctKids;
    var (s', r) := Promote(s, kid);
    if r.Ok? {
      assert ActiveKids(s'.table) == ActiveKids(s.table);
      forall k | k in s.store.keys ensures RowPair(env, s'.table[k.kid]) == Some(k) {
        RowPairIgnoresFlags(env, s.table[k.kid], s'.table[k.kid].isPrimary);
      }
    }
  }

  /** Removing one kid from keys that carry it once. */
  lemma {:induction false} WithoutDistinct(keys: seq<KeyPair>, kid: string)
    requires DistinctKids(keys)
    ensures DistinctKids(Without(keys, kid))
    ensures forall k :: HasKid(Without(keys, kid), k) <==> HasKid(keys, k) && k != kid
  {
    hide HasKid;
    if keys == [] {
      forall k ensures !HasKid(keys, k) { HasKidIn(keys, k); }
    } else {
      var rest := Without(keys[1..], kid);
      WithoutDistinct(keys[1..], kid);
      assert forall i :: 0 <= i < |rest| ==> rest[i] in keys[1..] && rest[i].kid != keys[0].kid;
      forall k ensures HasKid(Without(keys, kid), k) <==> HasKid(keys, k) && k != kid {
        HasKidIn(keys, k);
        HasKidIn(Without(keys, kid), k);
      }
    }
  }

  lemma HasKidIn(keys: seq<KeyPair>, kid: string)
    ensures HasKid(keys, kid) <==> exists k :: k in keys && k.kid == kid
  {
    if k :| k in keys && k.kid == kid {
      var i :| 0 <= i < |keys| && keys[i] == k;
      assert keys[i].kid == kid;
    }
  }

  lemma RetireAgrees(env: Env, s: Server, kid: string, now: nat)
    requires Agrees(env, s)
    ensures Agrees(env, Retire(s, kid, now).0)
  {
    hide RowPair, ReadRow, HasKid, DistinctKids;
    var (s', r) := Retire(s, kid, now);
    if r.Ok? {
      WithoutDistinct(s.store.keys, kid);
      assert ActiveKids(s'.table) == ActiveKids(s.table) - {kid};
    }
  }

  // ── Restart ───────────────────────────────────────────────────────────────

  lemma {:induction false} LoadedKeys(env: Env, s: Server, rows: seq<string>)
    requires Agrees(env, s) && forall i :: 0 <= i < |rows| ==> rows[i] in ActiveKids(s.table)
    ensures forall i :: 0 <= i < |rows| ==> rows[i] in s.table
    ensures var l := Loaded(env, s.table, rows);
            && l.Ok? && |l.value.0| == |rows|
            && (forall i :: 0 <= i < |rows| ==> l.value.0[i] in s.store.keys && l.value.0[i].kid == rows[i])
            && l.value.1 == (if s.store.primaryKid in rows then Some(s.store.primaryKid) else None)
  {
    hide ReadRow;
    if rows != [] {
      var init, k := rows[..|rows| - 1], rows[|rows| - 1];
      LoadedKeys(env, s, init);
      assert HasKid(s.store.keys, k);
      var i :| 0 <= i < |s.store.keys| && s.store.keys[i].kid == k;
      assert s.store.keys[i] in s.store.keys;
      assert RowPair(env, s.table[k]) == Some(s.store.keys[i]);
      assert rows == init + [k];
    }
  }

  /** A restart finds the same keys and the same primary and writes nothing. */
  lemma RestartRebuilds(env: Env, s: Server, rows: seq<string>, pem: string, nonce: nat, now: nat)
    requires Agrees(env, s) && NewestFirst(s.table, rows)
    ensures forall i :: 0 <= i < |rows| ==> rows[i] in s.table
    ensures var (t, r) := Startup(env, s.table, rows, pem, nonce, now);
            && t == s.table && r.Ok?
            && r.value.primaryKid == s.store.primaryKid
            && |r.value.keys| == |rows|
            && (forall k :: k in r.value.keys <==> k in s.store.keys)
            && Agrees(env, Server(t, r.value))
  {
    hide RowPair, ReadRow;
    LoadedKeys(env, s, rows);
    assert s.store.primaryKid in rows;
    var r := Startup(env, s.table, rows, pem, nonce, now).1;
    forall k | k in s.store.keys ensures k in r.value.keys {
      assert k.kid in rows;
      var i :| 0 <= i < |rows| && rows[i] == k.kid;
      assert r.value.keys[i] in s.store.keys && r.value.keys[i].kid == k.kid;
    }
    forall k | k in ActiveKids(s.table) ensures HasKid(r.value.keys, k) {
      var i :| 0 <= i < |rows| && rows[i] == k;
      assert r.value.keys[i].kid == k;
    }
  }

  /** A first start on an empty table succeeds exactly when the first key's PEM parses, and agrees from then on. */
  lemma FirstStartAgrees(env: Env, pem: string, nonce: nat, now: nat)
    ensures var (t, r) := Startup(env, map[], [], pem, nonce, now);
            && (r.Ok? <==> LoadPem(env, pem).Some?)
            && (r.Ok? ==> Agrees(env, Server(t, r.value)) && r.value.keys == [LoadPem(env, pem).value])
  {
    hide LoadPem, RowPair, ReadRow, Encrypt;
    if LoadPem(env, pem).Some? {
      var t := Startup(env, map[], [], pem, nonce, now).0;
      StoredPairLoads(env, pem, nonce, t[LoadPem(env, pem).value.kid]);
      assert [LoadPem(env, pem).value][0].kid in t;
    }
  }

  // ── Runs ──────────────────────────────────────────────────────────────────

  datatype Token = Token(signer: KeyPair, signedAt: nat, expSeconds: nat)

  datatype World = World(server: Server, clock: nat, tokens: seq<Token>)

  datatype Event =
    | Tick(dt: nat)
    | Sign(ttlSeconds: nat)
    | GenerateKey(pem: string, nonce: nat)
    | PromoteKid(kid: string)
    | RetireKid(kid: string)
    | Restart(rows: seq<string>, pem: string, nonce: nat)

  /** A restart needs a result set the server could return; signing needs the primary key (`expect`). */
  ghost function Step(env: Env, w: World, e: Event): World {
    match e
    case Tick(dt) => w.(clock := w.clock + dt)
    case Sign(ttl) =>
      var key := FindKey(w.server.store.keys, w.server.store.primaryKid);
      if key.None? then w else w.(tokens := w.tokens + [Token(key.value, w.clock, ClaimSeconds(w.clock, ttl))])
    case GenerateKey(pem, nonce) => w.(server := Generate(env, w.server, pem, nonce, w.clock).0)
    case PromoteKid(kid) => w.(server := Promote(w.server, kid).0)
    case RetireKid(kid) => w.(server := Retire(w.server, kid, w.clock).0)
    case Restart(rows, pem, nonce) =>
      if NewestFirst(w.server.table, rows) then
        var (t, r) := Startup(env, w.server.table, rows, pem, nonce, w.clock);
        if r.Err? then w else w.(server := Server(t, r.value))
      else w
  }

  ghost function Run(env: Env, w: World, es: seq<Event>): World
    decreases |es|
  {
    if es == [] then w else Run(env, Step(env, w, es[0]), es[1..])
  }

  /** The world after the first start with a parsable first key. */
  function Started(env: Env, pem: string, nonce: nat, clock: nat): World
    requires LoadPem(env, pem).Some?
  {
    var (t, r) := Startup(env, map[], [], pem, nonce, clock);
    World(Server(t, if r.Ok? then r.value else Store([], "")), clock, [])
  }

  /** A signer keeps its row, and the row its key, for ever. */
  ghost predicate Signers(env: Env, t: Table, tokens: seq<Token>) {
    forall i :: 0 <= i < |tokens| ==> tokens[i].signer.kid in t && RowPair(env, t[tokens[i].signer.kid]) == Some(tokens[i].signer)
  }

  ghost predicate WorldOk(env: Env, w: World) { Agrees(env, w.server) && Signers(env, w.server.table, w.tokens) }

  /** No call removes a row or changes the key it holds; a retired row stays retired. */
  lemma TableStatementsKeepRows(env: Env, t: Table, kid: string, enc: Sealed, nonce: nat, now: nat)
    ensures RowsKept(env, t, StoreKey(t, kid, enc, nonce, false, now).0)
    ensures RowsKept(env, t, PromoteKey(t, kid).0)
    ensures RowsKept(env, t, RetireKey(t, kid, now).0)
  {
    hide LoadPem;
  }

  lemma RowsStay(env: Env, s: Server, kid: string, pem: string, nonce: nat, now: nat)
    ensures RowsKept(env, s.table, Generate(env, s, pem, nonce, now).0.table)
    ensures RowsKept(env, s.table, Promote(s, kid).0.table)
    ensures RowsKept(env, s.table, Retire(s, kid, now).0.table)
  {
    hide LoadPem, RowPair, ReadRow, StoreKey, PromoteKey, RetireKey;
    var pair := LoadPem(env, pem);
    if pair.Some? {
      TableStatementsKeepRows(env, s.table, pair.value.kid, Encrypt(env.kek, nonce, Trim(env.isSpace, pem)), nonce, now);
    }
    TableStatementsKeepRows(env, s.table, kid, Encrypt(env.kek, 0, ""), 0, now);
  }

  ghost predicate RowsKept(env: Env, t: Table, t': Table) {
    forall k :: k in t ==> k in t' && RowPair(env, t'[k]) == RowPair(env, t[k]) && (t[k].retiredAt.Some? ==> t'[k].retiredAt.Some?)
  }

  lemma StepAgrees(env: Env, w: World, e: Event)
    requires Agrees(env, w.server)
    ensures Agrees(env, Step(env, w, e).server) && RowsKept(env, w.server.table, Step(env, w, e).server.table)
  {
    hide Agrees, RowPair, ReadRow, Generate, Promote, Retire, Startup, NewestFirst;
    match e
    case GenerateKey(pem, nonce) =>
      GenerateAgrees(env, w.server, pem, nonce, w.clock);
      RowsStay(env, w.server, "", pem, nonce, w.clock);
    case PromoteKid(kid) =>
      PromoteAgrees(env, w.server, kid);
      RowsStay(env, w.server, kid, "", 0, w.clock);
    case RetireKid(kid) =>
      RetireAgrees(env, w.server, kid, w.clock);
      RowsStay(env, w.server, kid, "", 0, w.clock);
    case Restart(rows, pem, nonce) =>
      if NewestFirst(w.server.table, rows) { RestartRebuilds(env, w.server, rows, pem, nonce, w.clock); }
    case _ =>
  }

  lemma StepKeepsWorld(env: Env, w: World, e: Event)
    requires WorldOk(env, w)
    ensures WorldOk(env, Step(env, w, e))
  {
    hide RowPair, ReadRow, Generate, Promote, Retire, Startup, NewestFirst;
    StepAgrees(env, w, e);
    var w' := Step(env, w, e);
    forall i | 0 <= i < |w'.tokens|
      ensures w'.tokens[i].signer.kid in w'.server.table &&
              RowPair(env, w'.server.table[w'.tokens[i].signer.kid]) == Some(w'.tokens[i].signer)
    {
      if i < |w.tokens| { assert w'.tokens[i] == w.tokens[i]; }
    }
  }

  lemma {:induction false} RunKeepsWorld(env: Env, w: World, es: seq<Event>)
    requires WorldOk(env, w)
    ensures WorldOk(env, Run(env, w, es))
    decreases |es|
  {
    hide WorldOk, Step;
    if es != [] {
      StepKeepsWorld(env, w, es[0]);
      RunKeepsWorld(env, Step(env, w, es[0]), es[1..]);
    }
  }

  lemma StartedOk(env: Env, pem: string, nonce: nat, clock: nat)
    requires LoadPem(env, pem).Some?
    ensures WorldOk(env, Started(env, pem, nonce, clock))
  {
    hide LoadPem, Agrees, Startup;
    FirstStartAgrees(env, pem, nonce, clock);
  }

  /**
   * Over every run: memory and table hold the same kids, exactly one row is
   * primary, it is active, it is the primary in memory, and `primary_key` finds it.
   */
  lemma MemoryAgreesWithTable(env: Env, pem: string, nonce: nat, clock: nat, es: seq<Event>)
    requires LoadPem(env, pem).Some?
    ensures var s := Run(env, Started(env, pem, nonce, clock), es).server;
            && (set k | k in s.store.keys :: k.kid) == ActiveKids(s.table)
            && (set k | k in s.table && s.table[k].isPrimary) == {s.store.primaryKid}
            && s.store.primaryKid in ActiveKids(s.table)
            && FindKey(s.store.keys, s.store.primaryKid).Some?
            && |s.store.keys| == |ActiveKids(s.table)|
  {
    hide Run, RowPair, ReadRow, LoadPem, Started;
    StartedOk(env, pem, nonce, clock);
    RunKeepsWorld(env, Started(env, pem, nonce, clock), es);
    var s := Run(env, Started(env, pem, nonce, clock), es).server;
    forall k | k in ActiveKids(s.table) ensures k in (set x | x in s.store.keys :: x.kid) {
      assert HasKid(s.store.keys, k);
      var i :| 0 <= i < |s.store.keys| && s.store.keys[i].kid == k;
      assert s.store.keys[i] in s.store.keys;
    }
    KidCount(s.store.keys);
  }

  lemma {:induction false} KidCount(keys: seq<KeyPair>)
    requires DistinctKids(keys)
    ensures |set k | k in keys :: k.kid| == |keys|
  {
    if keys == [] {
      assert (set k | k in keys :: k.kid) == {};
    } else {
      var init, last := keys[..|keys| - 1], keys[|keys| - 1];
      KidCount(init);
      assert keys == init + [last];
      assert (set k | k in keys :: k.kid) == (set k | k in init :: k.kid) + {last.kid};
    }
  }

  // ── Validation ────────────────────────────────────────────────────────────

  function NowSeconds(clock: nat): nat { clock / SECOND }

  /** `leeway` is the validation library's tolerance for `exp`. */
  predicate Expired(token: Token, clock: nat, leeway: nat) { token.expSeconds + leeway < NowSeconds(clock) }

  /** `decode_jwt_rs256`: try each key; a signature verifies only under its own key. */
  method Decode(token: Token, keys: seq<KeyPair>, clock: nat, leeway: nat) returns (r: Result<Token>)
    ensures r == if token.signer in keys && !Expired(token, clock, leeway) then Ok(token) else Err(InvalidToken)
  {
    for i := 0 to |keys|
      invariant !(token.signer in keys[..i] && !Expired(token, clock, leeway))
    {
      if keys[i] == token.signer && !Expired(token, clock, leeway) { return Ok(token); }
    }
    return Err(InvalidToken);
  }

  predicate Accepted(s: Server, token: Token, clock: nat, leeway: nat) {
    token.signer in s.store.keys && !Expired(token, clock, leeway)
  }

  /**
   * Whatever was promoted, generated or restarted since, a token of any earlier
   * moment is accepted exactly when it has not expired and its key is not retired.
   */
  lemma AcceptedIffNotRetired(env: Env, pem: string, nonce: nat, clock: nat, es: seq<Event>, i: nat, leeway: nat)
    requires LoadPem(env, pem).Some? && i < |Run(env, Started(env, pem, nonce, clock), es).tokens|
    ensures var w := Run(env, Started(env, pem, nonce, clock), es);
            var k := w.tokens[i].signer.kid;
            && k in w.server.table
            && (Accepted(w.server, w.tokens[i], w.clock, leeway) <==>
                !Expired(w.tokens[i], w.clock, leeway) && w.server.table[k].retiredAt.None?)
  {
    hide Run, RowPair, ReadRow, LoadPem, Started, Expired;
    StartedOk(env, pem, nonce, clock);
    RunKeepsWorld(env, Started(env, pem, nonce, clock), es);
    var w := Run(env, Started(env, pem, nonce, clock), es);
    var k := w.tokens[i].signer.kid;
    assert RowPair(env, w.server.table[k]) == Some(w.tokens[i].signer);
    if k in ActiveKids(w.server.table) {
      assert HasKid(w.server.store.keys, k);
      var j :| 0 <= j < |w.server.store.keys| && w.server.store.keys[j].kid == k;
      assert w.server.store.keys[j] in w.server.store.keys;
    }
  }

  // ── Safe retirement ───────────────────────────────────────────────────────

  ghost predicate ShortLived(tokens: seq<Token>, ttlSeconds: nat) {
    forall i :: 0 <= i < |tokens| ==> tokens[i].expSeconds * SECOND <= tokens[i].signedAt + ttlSeconds * SECOND
  }

  /** Every token of key `kid` was signed by time `until`. */
  ghost predicate SignedBy(tokens: seq<Token>, kid: string, until: nat) {
    forall i :: 0 <= i < |tokens| && tokens[i].signer.kid == kid ==> tokens[i].signedAt <= until
  }

  predicate SignsAtMost(e: Event, ttlSeconds: nat) { e.Sign? ==> e.ttlSeconds <= ttlSeconds }

  lemma QuietStep(env: Env, w: World, e: Event, kid: string, until: nat, ttlSeconds: nat)
    requires Agrees(env, w.server) && w.server.store.primaryKid != kid && e != PromoteKid(kid) && SignsAtMost(e, ttlSeconds)
    requires SignedBy(w.tokens, kid, until) && ShortLived(w.tokens, ttlSeconds)
    ensures var w' := Step(env, w, e);
            w'.server.store.primaryKid != kid && SignedBy(w'.tokens, kid, until) && ShortLived(w'.tokens, ttlSeconds)
  {
    hide RowPair, ReadRow, LoadPem, Startup, NewestFirst, Agrees;
    if e.Restart? && NewestFirst(w.server.table, e.rows) {
      RestartRebuilds(env, w.server, e.rows, e.pem, e.nonce, w.clock);
    }
  }

  /** While a key is not primary and is not promoted again, it signs nothing. */
  lemma {:induction false} QuietRun(env: Env, w: World, es: seq<Event>, kid: string, until: nat, ttlSeconds: nat)
    requires Agrees(env, w.server) && w.server.store.primaryKid != kid && PromoteKid(kid) !in es
    requires forall e :: e in es ==> SignsAtMost(e, ttlSeconds)
    requires SignedBy(w.tokens, kid, until) && ShortLived(w.tokens, ttlSeconds)
    ensures var w' := Run(env, w, es); SignedBy(w'.tokens, kid, until) && ShortLived(w'.tokens, ttlSeconds)
    decreases |es|
  {
    hide Agrees, Step, SignsAtMost;
    if es != [] {
      QuietStep(env, w, es[0], kid, until, ttlSeconds);
      StepAgrees(env, w, es[0]);
      QuietRun(env, Step(env, w, es[0]), es[1..], kid, until, ttlSeconds);
    }
  }

  ghost predicate Timely(w: World, ttlSeconds: nat) {
    ShortLived(w.tokens, ttlSeconds) && forall i :: 0 <= i < |w.tokens| ==> w.tokens[i].signedAt <= w.clock
  }

  lemma {:induction false} RunIsTimely(env: Env, w: World, es: seq<Event>, ttlSeconds: nat)
    requires Timely(w, ttlSeconds) && forall e :: e in es ==> SignsAtMost(e, ttlSeconds)
    ensures Timely(Run(env, w, es), ttlSeconds)
    decreases |es|
  {
    hide Step, Timely, SignsAtMost;
    if es != [] {
      TimelyStep(env, w, es[0], ttlSeconds);
      RunIsTimely(env, Step(env, w, es[0]), es[1..], ttlSeconds);
    }
  }

  lemma TimelyStep(env: Env, w: World, e: Event, ttlSeconds: nat)
    requires Timely(w, ttlSeconds) && SignsAtMost(e, ttlSeconds)
    ensures Timely(Step(env, w, e), ttlSeconds)
  {
    hide Generate, Promote, Retire, Startup, NewestFirst;
  }

  /**
   * Once a key has been out of office for the longest token lifetime (plus the
   * validator's leeway and a second for truncation), retiring it changes no
   * verdict: whatever was accepted before is accepted after.
   */
  lemma RetiringAfterTtlBreaksNothing(env: Env, pem: string, nonce: nat, clock: nat, before: seq<Event>, after: seq<Event>,
                                      kid: string, ttlSeconds: nat, leeway: nat)
    requires LoadPem(env, pem).Some?
    requires forall e :: e in before + after ==> SignsAtMost(e, ttlSeconds)
    requires var w := Run(env, Started(env, pem, nonce, clock), before);
             w.server.store.primaryKid != kid && PromoteKid(kid) !in after &&
             Run(env, w, after).clock >= w.clock + (ttlSeconds + leeway + 1) * SECOND
    ensures var a := Run(env, Run(env, Started(env, pem, nonce, clock), before), after);
            var b := Step(env, a, RetireKid(kid));
            forall i :: 0 <= i < |a.tokens| ==>
              (Accepted(b.server, a.tokens[i], a.clock, leeway) <==> Accepted(a.server, a.tokens[i], a.clock, leeway))
  {
    hide Run, WorldOk, Agrees, Signers, Expired, Started, LoadPem, SignsAtMost;
    var w0 := Started(env, pem, nonce, clock);
    var w := Run(env, w0, before);
    StartedOk(env, pem, nonce, clock);
    RunKeepsWorld(env, w0, before);
    WorldAgrees(env, w);
    StartsEmpty(env, pem, nonce, clock);
    RunIsTimely(env, w0, before, ttlSeconds);
    QuietRun(env, w, after, kid, w.clock, ttlSeconds);
    var a := Run(env, w, after);
    forall i | 0 <= i < |a.tokens| && a.tokens[i].signer.kid == kid ensures Expired(a.tokens[i], a.clock, leeway) {
      OldTokenExpired(a.tokens[i], w.clock, a.clock, ttlSeconds, leeway);
    }
  }

  lemma StartsEmpty(env: Env, pem: string, nonce: nat, clock: nat)
    requires LoadPem(env, pem).Some?
    ensures Started(env, pem, nonce, clock).tokens == []
  {
    hide LoadPem, Startup;
  }

  lemma WorldAgrees(env: Env, w: World)
    requires WorldOk(env, w)
    ensures Agrees(env, w.server)
  {
    hide Agrees, Signers;
  }

  lemma OldTokenExpired(token: Token, since: nat, clock: nat, ttlSeconds: nat, leeway: nat)
    requires token.signedAt <= since && token.expSeconds * SECOND <= token.signedAt + ttlSeconds * SECOND
    requires clock >= since + (ttlSeconds + leeway + 1) * SECOND
    ensures Expired(token, clock, leeway)
  {
  }

  // ── The calls in place ────────────────────────────────────────────────────

  class KeyService {
    const env: Env
    var table: Table
    var keys: seq<KeyPair>
    var primaryKid: string

    function State(): Server
      reads this
    {
      Server(table, Store(keys, primaryKid))
    }

    constructor (env: Env, s: Server)
      ensures this.env == env && State() == s
    {
      this.env := env;
      table, keys, primaryKid := s.table, s.store.keys, s.store.primaryKid;
    }

    method DemoteAll()
      modifies this`table
      ensures table == Demoted(old(table))
    {
      table := map k | k in table :: if table[k].isPrimary then table[k].(isPrimary := false) else table[k];
    }

    method StoreSigningKey(kid: string, enc: Sealed, nonce: nat, primary: bool, now: nat) returns (r: Result<()>)
      modifies this`table
      ensures (table, r) == StoreKey(old(table), kid, enc, nonce, primary, now)
    {
      if primary { DemoteAll(); }
      if kid in table { return Err(Database); }
      table := table[kid := Row(enc, nonce, primary, now, None)];
      return Ok(());
    }

    method GenerateKey(pem: string, nonce: nat, now: nat) returns (r: Result<string>)
      modifies this
      ensures (State(), r) == Generate(env, old(State()), pem, nonce, now)
    {
      var pair := LoadPem(env, pem);
      if pair.None? { return Err(Validation); }
      var stored := StoreSigningKey(pair.value.kid, Encrypt(env.kek, nonce, Trim(env.isSpace, pem)), nonce, false, now);
      if stored.Err? { return Err(stored.error); }
      keys := keys + [pair.value];
      return Ok(pair.value.kid);
    }

    method PromoteKid(kid: string) returns (r: Result<()>)
      modifies this
      ensures (State(), r) == Promote(old(State()), kid)
    {
      if FindKey(keys, kid).None? { return Err(NotFound); }
      DemoteAll();
      if kid !in table { return Err(NotFound); }
      table := table[kid := table[kid].(isPrimary := true)];
      primaryKid := kid;
      return Ok(());
    }

    method RetireKid(kid: string, now: nat) returns (r: Result<()>)
      modifies this
      ensures (State(), r) == Retire(old(State()), kid, now)
    {
      if primaryKid == kid { return Err(Validation); }
      if kid !in table || table[kid].retiredAt.Some? { return Err(NotFound); }
      table := table[kid := table[kid].(retiredAt := Some(now), isPrimary := false)];
      keys := Without(keys, kid);
      return Ok(());
    }

    /** `init_db_backed`: rebuild memory from the active rows, or seed the first key. */
    method Start(rows: seq<string>, pem: string, nonce: nat, now: nat) returns (r: Result<()>)
      requires forall i :: 0 <= i < |rows| ==> rows[i] in table
      modifies this
      ensures var (t, s) := Startup(env, old(table), rows, pem, nonce, now);
              && table == t && r.Ok? == s.Ok?
              && (s.Ok? ==> State() == Server(t, s.value))
              && (s.Err? ==> r == Err(s.error) && keys == old(keys) && primaryKid == old(primaryKid))
    {
      if rows == [] {
        var pair := LoadPem(env, pem);
        if pair.None? { return Err(Validation); }
        var stored := StoreSigningKey(pair.value.kid, Encrypt(env.kek, nonce, Trim(env.isSpace, pem)), nonce, true, now);
        if stored.Err? { return Err(stored.error); }
        keys, primaryKid := [pair.value], pair.value.kid;
        return Ok(());
      }
      var loaded: seq<KeyPair> := [];
      var primary: Option<string> := None;
      for i := 0 to |rows|
        invariant Loaded(env, table, rows[..i]) == Ok((loaded, primary))
      {
        assert rows[..i + 1][..i] == rows[..i];
        var pair := ReadRow(env, table[rows[i]]);
        if pair.Err? {
          LoadedErr(env, table, rows, i + 1);
          return Err(pair.error);
        }
        if table[rows[i]].isPrimary { primary := Some(pair.value.kid); }
        loaded := loaded + [pair.value];
      }
      assert rows[..|rows|] == rows;
      if primary.None? { return Err(Internal); }
      keys, primaryKid := loaded, primary.value;
      return Ok(());
    }
  }

  lemma {:induction false} LoadedErr(env: Env, t: Table, rows: seq<string>, n: nat)
    requires n <= |rows| && forall i :: 0 <= i < |rows| ==> rows[i] in t
    requires Loaded(env, t, rows[..n]).Err?
    ensures Loaded(env, t, rows) == Loaded(env, t, rows[..n])
    decreases |rows|
  {
    if n == |rows| {
      assert rows[..n] == rows;
    } else {
      assert rows[..|rows| - 1][..n] == rows[..n];
      LoadedErr(env, t, rows[..|rows| - 1], n);
    }
  }
}
