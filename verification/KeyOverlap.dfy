// Key calls that overlap.  `promote` and `retire` look at memory, release the
// lock, and write later; by then other calls may have written.  Exactly which
// writes keep memory and table in agreement, over every interleaving.
//
// The two UPDATEs of a promote count as one, and up to the last section the
// write of a call, first the table and then memory, is one step.

module KeyOverlap {
  import opened SigningKeys

  // ── The writing half of a call ────────────────────────────────────────────

  datatype Call = Promoting(kid: string) | Retiring(kid: string) | Generating(pem: string, nonce: nat)

  /** What a call does after its look at memory, whatever it saw. */
  function Write(env: Env, s: Server, c: Call, now: nat): Server {
    match c
    case Promoting(kid) =>
      var (t, r) := PromoteKey(s.table, kid);
      Server(t, if r.Ok? then s.store.(primaryKid := kid) else s.store)
    case Retiring(kid) =>
      var (t, r) := RetireKey(s.table, kid, now);
      Server(t, if r.Ok? then s.store.(keys := Without(s.store.keys, kid)) else s.store)
    case Generating(pem, nonce) => Generate(env, s, pem, nonce, now).0
  }

  /** What a call looks at in memory before it goes on to write. */
  predicate Admits(s: Server, c: Call) {
    match c
    case Promoting(kid) => FindKey(s.store.keys, kid).Some?
    case Retiring(kid) => s.store.primaryKid != kid
    case Generating(_, _) => true
  }

  /** What would have to hold when it writes. */
  predicate Guard(s: Server, c: Call) {
    match c
    case Promoting(kid) => kid in ActiveKids(s.table)
    case Retiring(kid) => kid != s.store.primaryKid
    case Generating(_, _) => true
  }

  /** A call that is not interrupted is its look followed by its write. */
  lemma SerialCall(env: Env, s: Server, kid: string, now: nat)
    ensures Promote(s, kid).0 == if Admits(s, Promoting(kid)) then Write(env, s, Promoting(kid), now) else s
    ensures Retire(s, kid, now).0 == if Admits(s, Retiring(kid)) then Write(env, s, Retiring(kid), now) else s
  {
  }

  /** The look tells the truth about the guard, as long as memory agrees with the table. */
  lemma LookIsGuard(env: Env, s: Server, c: Call)
    requires Agrees(env, s)
    ensures Admits(s, c) <==> Guard(s, c)
  {
    hide RowPair, ReadRow, DistinctKids;
    if c.Promoting? && c.kid in ActiveKids(s.table) { assert HasKid(s.store.keys, c.kid); }
  }

  lemma LatePromoteIff(env: Env, s: Server, kid: string, now: nat)
    requires Agrees(env, s)
    ensures Agrees(env, Write(env, s, Promoting(kid), now)) <==> kid in ActiveKids(s.table)
  {
    hide RowPair, ReadRow, DistinctKids, Held;
    LookIsGuard(env, s, Promoting(kid));
    SerialCall(env, s, kid, now);
    if kid in ActiveKids(s.table) {
      hide Agrees;
      PromoteAgrees(env, s, kid);
    } else {
      var d := Write(env, s, Promoting(kid), now);
      if kid !in s.table { assert d.table == Demoted(s.table) && s.store.primaryKid in d.table; }
    }
  }

  lemma LateRetireIff(env: Env, s: Server, kid: string, now: nat)
    requires Agrees(env, s)
    ensures Agrees(env, Write(env, s, Retiring(kid), now)) <==> kid != s.store.primaryKid
  {
    hide RowPair, ReadRow, DistinctKids, Held;
    SerialCall(env, s, kid, now);
    if kid != s.store.primaryKid {
      hide Agrees;
      RetireAgrees(env, s, kid, now);
    }
  }

  /** A write keeps the agreement exactly if its guard holds when it happens. */
  lemma WriteAgreesIff(env: Env, s: Server, c: Call, now: nat)
    requires Agrees(env, s)
    ensures Agrees(env, Write(env, s, c, now)) <==> Guard(s, c)
  {
    match c {
      case Promoting(kid) => hide Agrees, Write; LatePromoteIff(env, s, kid, now);
      case Retiring(kid) => hide Agrees, Write; LateRetireIff(env, s, kid, now);
      case Generating(pem, nonce) => hide Agrees; GenerateAgrees(env, s, pem, nonce, now);
    }
  }

  // ── Any number of calls in flight ─────────────────────────────────────────

  datatype Office = Office(server: Server, calls: map<nat, Call>, clock: nat)

  datatype Act =
    | Pass(dt: nat)
    | Look(h: nat, c: Call)
    | Finish(h: nat)
    | Abandon(h: nat)
    | Reboot(rows: seq<string>, pem: string, nonce: nat)

  /** A restart forgets the calls in flight and reads the table anew. */
  ghost function Turn(env: Env, w: Office, e: Act): Office {
    match e
    case Pass(dt) => w.(clock := w.clock + dt)
    case Look(h, c) => if h !in w.calls && Admits(w.server, c) then w.(calls := w.calls[h := c]) else w
    case Finish(h) =>
      if h in w.calls then w.(server := Write(env, w.server, w.calls[h], w.clock), calls := w.calls - {h}) else w
    case Abandon(h) => w.(calls := w.calls - {h})
    case Reboot(rows, pem, nonce) =>
      if NewestFirst(w.server.table, rows) then
        var (t, r) := Startup(env, w.server.table, rows, pem, nonce, w.clock);
        if r.Err? then w else Office(Server(t, r.value), map[], w.clock)
      else w
  }

  /** The only events that can break the agreement, and the condition they must meet. */
  predicate Guarded(w: Office, e: Act) { e.Finish? && e.h in w.calls ==> Guard(w.server, w.calls[e.h]) }

  ghost predicate AgreesThroughout(env: Env, w: Office, es: seq<Act>)
    decreases |es|
  {
    Agrees(env, w.server) && (es == [] || AgreesThroughout(env, Turn(env, w, es[0]), es[1..]))
  }

  ghost predicate WritesGuarded(env: Env, w: Office, es: seq<Act>)
    decreases |es|
  {
    es == [] || (Guarded(w, es[0]) && WritesGuarded(env, Turn(env, w, es[0]), es[1..]))
  }

  lemma TurnAgreesIff(env: Env, w: Office, e: Act)
    requires Agrees(env, w.server)
    ensures Agrees(env, Turn(env, w, e).server) <==> Guarded(w, e)
  {
    hide Agrees, Write, Guard, Admits, Startup, NewestFirst;
    if e.Finish? && e.h in w.calls { WriteAgreesIff(env, w.server, w.calls[e.h], w.clock); }
    if e.Reboot? && NewestFirst(w.server.table, e.rows) { RestartRebuilds(env, w.server, e.rows, e.pem, e.nonce, w.clock); }
  }

  /** However calls overlap, memory and table agree throughout exactly if every write meets its guard. */
  lemma {:induction false} OverlapAgreesIff(env: Env, w: Office, es: seq<Act>)
    requires Agrees(env, w.server)
    ensures AgreesThroughout(env, w, es) <==> WritesGuarded(env, w, es)
    decreases |es|
  {
    hide Agrees, Turn, Guarded;
    if es != [] {
      TurnAgreesIff(env, w, es[0]);
      if Guarded(w, es[0]) { OverlapAgreesIff(env, Turn(env, w, es[0]), es[1..]); }
    }
  }

  // ── Who spoils whose guard ────────────────────────────────────────────────

  /** Promoting and retiring the same key. */
  predicate Opposed(c: Call, d: Call) {
    (c.Promoting? && d.Retiring? && c.kid == d.kid) || (c.Retiring? && d.Promoting? && c.kid == d.kid)
  }

  /** Between look and write a call's guard is lost exactly to the write of an opposed call. */
  lemma GuardLostIff(env: Env, w: Office, e: Act, c: Call)
    requires Agrees(env, w.server) && Guarded(w, e) && Guard(w.server, c)
    ensures !Guard(Turn(env, w, e).server, c) <==> e.Finish? && e.h in w.calls && Opposed(c, w.calls[e.h])
  {
    hide RowPair, ReadRow, DistinctKids, Held, Startup, NewestFirst, LoadPem;
    if e.Reboot? && NewestFirst(w.server.table, e.rows) {
      hide Agrees;
      RestartRebuilds(env, w.server, e.rows, e.pem, e.nonce, w.clock);
    }
  }

  /** No call is let in while an opposed one is in flight. */
  ghost predicate Exclusive(env: Env, w: Office, es: seq<Act>)
    decreases |es|
  {
    es == [] ||
    ((es[0].Look? && Admits(w.server, es[0].c) ==> forall k :: k in w.calls ==> !Opposed(es[0].c, w.calls[k])) &&
     Exclusive(env, Turn(env, w, es[0]), es[1..]))
  }

  ghost predicate Settled(w: Office) {
    && (forall h :: h in w.calls ==> Guard(w.server, w.calls[h]))
    && (forall h, k :: h in w.calls && k in w.calls ==> !Opposed(w.calls[h], w.calls[k]))
  }

  lemma TurnKeepsSettled(env: Env, w: Office, e: Act)
    requires Agrees(env, w.server) && Settled(w)
    requires e.Look? && Admits(w.server, e.c) ==> forall k :: k in w.calls ==> !Opposed(e.c, w.calls[k])
    ensures Guarded(w, e) && Settled(Turn(env, w, e))
  {
    var w' := Turn(env, w, e);
    assert forall h :: h in w'.calls ==> (h in w.calls && w'.calls[h] == w.calls[h]) || (e.Look? && h == e.h && w'.calls[h] == e.c);
    hide Agrees, Guard, Admits, Turn;
    forall h | h in w'.calls ensures Guard(w'.server, w'.calls[h]) {
      if e.Look? { LookIsGuard(env, w.server, e.c); }
      if Guard(w.server, w'.calls[h]) { GuardLostIff(env, w, e, w'.calls[h]); }
    }
  }

  /** One opposed call at a time for each key is enough: then no interleaving of anything breaks the agreement. */
  lemma {:induction false} ExclusiveCallsAgree(env: Env, w: Office, es: seq<Act>)
    requires Agrees(env, w.server) && Settled(w) && Exclusive(env, w, es)
    ensures AgreesThroughout(env, w, es)
    decreases |es|
  {
    hide Agrees, Turn, Settled, Guarded, Admits, Opposed;
    if es != [] {
      TurnKeepsSettled(env, w, es[0]);
      TurnAgreesIff(env, w, es[0]);
      ExclusiveCallsAgree(env, Turn(env, w, es[0]), es[1..]);
    }
  }

  // ── The two ways it breaks ────────────────────────────────────────────────

  /** A retire inside a promote: memory's primary kid has no key, and the primary row is a retired one. */
  lemma RetireInsidePromote(env: Env, s: Server, kid: string, now: nat)
    requires Agrees(env, s) && kid in ActiveKids(s.table) && kid != s.store.primaryKid
    ensures Admits(s, Promoting(kid)) && Admits(s, Retiring(kid))
    ensures var d := Write(env, Write(env, s, Retiring(kid), now), Promoting(kid), now);
            && d.store.primaryKid == kid && FindKey(d.store.keys, kid).None?
            && d.table[kid].isPrimary && d.table[kid].retiredAt.Some?
  {
    hide RowPair, ReadRow, DistinctKids;
    LookIsGuard(env, s, Promoting(kid));
  }

  /** A promote inside a retire: memory's primary kid has no key, and no row is primary. */
  lemma PromoteInsideRetire(env: Env, s: Server, kid: string, now: nat)
    requires Agrees(env, s) && kid in ActiveKids(s.table) && kid != s.store.primaryKid
    ensures Admits(s, Promoting(kid)) && Admits(s, Retiring(kid))
    ensures var d := Write(env, Write(env, s, Promoting(kid), now), Retiring(kid), now);
            && d.store.primaryKid == kid && FindKey(d.store.keys, kid).None?
            && (forall k :: k in d.table ==> !d.table[k].isPrimary)
  {
    hide RowPair, ReadRow, DistinctKids;
    LookIsGuard(env, s, Promoting(kid));
  }

  // ── Table first, memory later ─────────────────────────────────────────────

  /** The memory half of a write whose table half has succeeded. */
  datatype Due = SetPrimary(kid: string) | DropKey(kid: string) | PushKey(pair: KeyPair)

  function Pay(s: Store, d: Due): Store {
    match d
    case SetPrimary(kid) => s.(primaryKid := kid)
    case DropKey(kid) => s.(keys := Without(s.keys, kid))
    case PushKey(pair) => s.(keys := s.keys + [pair])
  }

  function PayAll(s: Store, due: seq<Due>): Store
    decreases |due|
  {
    if due == [] then s else PayAll(Pay(s, due[0]), due[1..])
  }

  /** The table half: the new table, and what is then due in memory. */
  function TableHalf(env: Env, t: Table, c: Call, now: nat): (Table, seq<Due>) {
    match c
    case Promoting(kid) =>
      var (t1, r) := PromoteKey(t, kid);
      (t1, if r.Ok? then [SetPrimary(kid)] else [])
    case Retiring(kid) =>
      var (t1, r) := RetireKey(t, kid, now);
      (t1, if r.Ok? then [DropKey(kid)] else [])
    case Generating(pem, nonce) =>
      var pair := LoadPem(env, pem);
      if pair.None? then (t, [])
      else
        var (t1, r) := StoreKey(t, pair.value.kid, Encrypt(env.kek, nonce, Trim(env.isSpace, pem)), nonce, false, now);
        (t1, if r.Err? then [] else [PushKey(pair.value)])
  }

  /** Writes that have reached the table and not yet memory, in the order in which they reached the table. */
  datatype Split = Split(server: Server, due: seq<Due>)

  datatype Half = ToTable(c: Call, now: nat) | ToMemory(i: nat)

  function HalfStep(env: Env, x: Split, e: Half): Split {
    match e
    case ToTable(c, now) =>
      var (t, d) := TableHalf(env, x.server.table, c, now);
      Split(x.server.(table := t), x.due + d)
    case ToMemory(i) =>
      if i < |x.due| then Split(x.server.(store := Pay(x.server.store, x.due[i])), x.due[..i] + x.due[i + 1..]) else x
  }

  function HalfRun(env: Env, x: Split, es: seq<Half>): Split
    decreases |es|
  {
    if es == [] then x else HalfRun(env, HalfStep(env, x, es[0]), es[1..])
  }

  /** The writes of a run, each in one step, in the order in which they reach the table. */
  function WriteAll(env: Env, s: Server, es: seq<Half>): Server
    decreases |es|
  {
    if es == [] then s
    else WriteAll(env, if es[0].ToTable? then Write(env, s, es[0].c, es[0].now) else s, es[1..])
  }

  /** The server once everything due has reached memory. */
  function Paid(x: Split): Server { x.server.(store := PayAll(x.server.store, x.due)) }

  lemma {:induction false} PayAllSnoc(s: Store, due: seq<Due>, more: seq<Due>)
    ensures PayAll(s, due + more) == PayAll(PayAll(s, due), more)
    decreases |due|
  {
    if due == [] {
      assert due + more == more;
    } else {
      assert (due + more)[0] == due[0] && (due + more)[1..] == due[1..] + more;
      PayAllSnoc(Pay(s, due[0]), due[1..], more);
    }
  }

  lemma TableHalfIsWrite(env: Env, s: Server, c: Call, now: nat)
    ensures var (t, d) := TableHalf(env, s.table, c, now);
            Write(env, s, c, now) == Server(t, PayAll(s.store, d))
  {
    hide LoadPem, PromoteKey, RetireKey, StoreKey;
    var d := TableHalf(env, s.table, c, now).1;
    if d == [] {
      assert PayAll(s.store, d) == s.store;
    } else {
      assert d == [d[0]] && d[1..] == [];
      assert PayAll(s.store, d) == PayAll(Pay(s.store, d[0]), []) == Pay(s.store, d[0]);
    }
  }

  lemma HalfStepPaid(env: Env, x: Split, e: Half)
    requires e.ToMemory? ==> e.i == 0
    ensures Paid(HalfStep(env, x, e)) == if e.ToTable? then Write(env, Paid(x), e.c, e.now) else Paid(x)
  {
    hide TableHalf, Write, Pay;
    if e.ToTable? {
      var (t, d) := TableHalf(env, x.server.table, e.c, e.now);
      PayAllSnoc(x.server.store, x.due, d);
      TableHalfIsWrite(env, Paid(x), e.c, e.now);
    } else if x.due != [] {
      assert x.due[..0] + x.due[1..] == x.due[1..];
    }
  }

  /**
   * If memory writes come in the order of their table writes, then, whatever runs
   * in between, what they leave once all are made is what whole writes leave.
   */
  lemma {:induction false} InOrderIsWhole(env: Env, x: Split, es: seq<Half>)
    requires forall e :: e in es && e.ToMemory? ==> e.i == 0
    ensures Paid(HalfRun(env, x, es)) == WriteAll(env, Paid(x), es)
    decreases |es|
  {
    hide HalfStep, Paid, Write;
    if es != [] {
      HalfStepPaid(env, x, es[0]);
      InOrderIsWhole(env, HalfStep(env, x, es[0]), es[1..]);
    }
  }

  /** Out of order they need not: two promotes whose memory writes cross leave the table with one primary and memory with the other. */
  lemma CrossedPromotesAgreeIff(env: Env, s: Server, a: string, b: string, now: nat)
    requires Agrees(env, s) && a in ActiveKids(s.table) && b in ActiveKids(s.table)
    ensures var x := HalfRun(env, Split(s, []), [ToTable(Promoting(a), now), ToTable(Promoting(b), now), ToMemory(1), ToMemory(0)]);
            && x.due == [] && x.server.store.primaryKid == a
            && (forall k :: k in x.server.table ==> (x.server.table[k].isPrimary <==> k == b))
            && (Agrees(env, x.server) <==> a == b)
  {
    hide Held, DistinctKids, Startup;
    var es := [ToTable(Promoting(a), now), ToTable(Promoting(b), now), ToMemory(1), ToMemory(0)];
    var x1 := HalfStep(env, Split(s, []), es[0]);
    assert x1.due == [SetPrimary(a)];
    var x2 := HalfStep(env, x1, es[1]);
    assert x2.due == [SetPrimary(a), SetPrimary(b)];
    var x3 := HalfStep(env, x2, es[2]);
    assert x3.due == [SetPrimary(a)];
    var x4 := HalfStep(env, x3, es[3]);
    assert x4.due == [];
    FourHalves(env, Split(s, []), es);
    if a == b {
      var once := Write(env, s, Promoting(a), now);
      WriteAgreesIff(env, s, Promoting(a), now);
      WriteAgreesIff(env, once, Promoting(a), now);
      assert x4.server == Write(env, once, Promoting(a), now);
    }
  }

  lemma FourHalves(env: Env, x: Split, es: seq<Half>)
    requires |es| == 4
    ensures HalfRun(env, x, es) == HalfStep(env, HalfStep(env, HalfStep(env, HalfStep(env, x, es[0]), es[1]), es[2]), es[3])
  {
    hide HalfStep;
    var x1 := HalfStep(env, x, es[0]);
    var x2 := HalfStep(env, x1, es[1]);
    var x3 := HalfStep(env, x2, es[2]);
    assert HalfRun(env, x, es) == HalfRun(env, x1, es[1..]);
    assert HalfRun(env, x1, es[1..]) == HalfRun(env, x2, es[1..][1..]);
    assert HalfRun(env, x2, es[1..][1..]) == HalfRun(env, x3, es[1..][1..][1..]);
  }
}
