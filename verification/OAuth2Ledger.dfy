// What must never go wrong with a chain of refresh tokens, stated on a small
// ledger: who may still extend each grant, which generations exist, and which
// access tokens were signed, in order.  The protocol refines this ledger
// (OAuth2Chains.dfy).

module OAuth2Ledger {

  /** Position in a grant's chain: generation 0 is the code exchange, k the k-th refresh. */
  datatype Link = Link(grant: nat, gen: nat)

  /** A request between the guarded UPDATE that admitted it and the INSERT that ends it. */
  datatype Work = Work(link: Link, signed: bool)

  /**
   * `open`: codes not yet used; `live`: refresh tokens not yet rotated;
   * `codes`, `rows`: all rows; `issued[g]`: refresh tokens stored for grant g;
   * `signed`: the access tokens signed for any grant, oldest first.
   */
  datatype Ledger = Ledger(issued: seq<nat>,
                           codes: map<string, nat>, open: map<string, nat>,
                           rows: map<string, Link>, live: map<string, Link>,
                           work: map<nat, Work>, signed: seq<Link>)

  /** Whoever can still extend a chain. */
  datatype Holder = Code(code: string) | Token(hash: string) | Request(h: nat)

  predicate Holds(l: Ledger, g: nat, x: Holder) {
    match x
    case Code(c) => c in l.open && l.open[c] == g
    case Token(t) => t in l.live && l.live[t].grant == g
    case Request(h) => h in l.work && l.work[h].link.grant == g
  }

  ghost predicate Dead(l: Ledger, g: nat) { forall x :: !Holds(l, g, x) }

  // ── Transitions ───────────────────────────────────────────────────────────

  ghost predicate Submap<K(!new), V>(a: map<K, V>, b: map<K, V>) {
    forall k :: k in a ==> k in b && a[k] == b[k]
  }

  /** Rows and requests may vanish; nothing appears. */
  ghost predicate Shrinks(l: Ledger, l': Ledger) {
    && l'.issued == l.issued && l'.signed == l.signed
    && Submap(l'.codes, l.codes) && Submap(l'.open, l.open)
    && Submap(l'.rows, l.rows) && Submap(l'.live, l.live)
    && Submap(l'.work, l.work)
    && l'.open.Keys <= l'.codes.Keys && l'.live.Keys <= l'.rows.Keys
  }

  ghost predicate Opens(l: Ledger, l': Ledger, c: string) {
    && c !in l.codes
    && l' == l.(issued := l.issued + [0], codes := l.codes[c := |l.issued|], open := l.open[c := |l.issued|])
  }

  ghost predicate Takes(l: Ledger, l': Ledger, c: string, h: nat) {
    && c in l.open && h !in l.work
    && l' == l.(open := l.open - {c}, work := l.work[h := Work(Link(l.open[c], 0), false)])
  }

  ghost predicate Rotates(l: Ledger, l': Ledger, t: string, h: nat) {
    && t in l.live && h !in l.work
    && l' == l.(live := l.live - {t}, work := l.work[h := Work(Link(l.live[t].grant, l.live[t].gen + 1), false)])
  }

  ghost predicate Signs(l: Ledger, l': Ledger, h: nat) {
    && h in l.work && !l.work[h].signed
    && l' == l.(work := l.work[h := l.work[h].(signed := true)], signed := l.signed + [l.work[h].link])
  }

  ghost predicate Stores(l: Ledger, l': Ledger, h: nat, t: string) {
    && h in l.work && l.work[h].signed && t !in l.rows && l.work[h].link.grant < |l.issued|
    && l' == l.(work := l.work - {h},
                rows := l.rows[t := l.work[h].link], live := l.live[t := l.work[h].link],
                issued := l.issued[l.work[h].link.grant := l.work[h].link.gen + 1])
  }

  ghost predicate Next(l: Ledger, l': Ledger) {
    || Shrinks(l, l')
    || (exists c :: Opens(l, l', c))
    || (exists c, h :: Takes(l, l', c, h))
    || (exists t, h :: Rotates(l, l', t, h))
    || (exists h :: Signs(l, l', h))
    || (exists h, t :: Stores(l, l', h, t))
  }

  // ── Invariant ─────────────────────────────────────────────────────────────

  ghost predicate Shape(l: Ledger) {
    && Submap(l.open, l.codes) && Submap(l.live, l.rows)
    && (forall c :: c in l.codes ==> l.codes[c] < |l.issued|)
    && (forall t :: t in l.rows ==> l.rows[t].grant < |l.issued|)
    && (forall h :: h in l.work ==> l.work[h].link.grant < |l.issued|)
    && (forall i :: 0 <= i < |l.signed| ==> l.signed[i].grant < |l.issued|)
  }

  ghost predicate OneHolder(l: Ledger) {
    forall g: nat, x, y :: Holds(l, g, x) && Holds(l, g, y) ==> x == y
  }

  /** Stored generations lie below the counter; the un-rotated one is the newest; requests fill the next slot. */
  ghost predicate Counted(l: Ledger)
    requires Shape(l)
  {
    && (forall c :: c in l.open ==> l.issued[l.open[c]] == 0)
    && (forall t :: t in l.rows ==> l.rows[t].gen < l.issued[l.rows[t].grant])
    && (forall t :: t in l.live ==> l.live[t].gen + 1 == l.issued[l.live[t].grant])
    && (forall h :: h in l.work ==> l.work[h].link.gen == l.issued[l.work[h].link.grant])
  }

  ghost predicate Injective<K(!new), V>(m: map<K, V>) {
    forall j, k :: j in m && k in m && m[j] == m[k] ==> j == k
  }

  /** One code row per grant, one refresh-token row per link. */
  ghost predicate Distinct(l: Ledger) { Injective(l.codes) && Injective(l.rows) }

  /** Signatures of one grant carry strictly increasing generations. */
  ghost predicate InOrder(signed: seq<Link>) {
    forall i, j :: 0 <= i < j < |signed| && signed[i].grant == signed[j].grant ==> signed[i].gen < signed[j].gen
  }

  predicate HasSigned(l: Ledger, x: Holder) {
    x.Request? && x.h in l.work && l.work[x.h].signed
  }

  /** Signed generations never pass the counter, and a holder yet to sign comes after all of them. */
  ghost predicate SignedBelow(l: Ledger)
    requires Shape(l)
  {
    && (forall i :: 0 <= i < |l.signed| ==> l.signed[i].gen <= l.issued[l.signed[i].grant])
    && (forall i, x | 0 <= i < |l.signed| && Holds(l, l.signed[i].grant, x) && !HasSigned(l, x) ::
          l.signed[i].gen < l.issued[l.signed[i].grant])
  }

  ghost predicate Inv(l: Ledger) {
    Shape(l) && OneHolder(l) && Counted(l) && Distinct(l) && InOrder(l.signed) && SignedBelow(l)
  }

  // ── Every transition keeps it ─────────────────────────────────────────────

  lemma ShrinksHolders(l: Ledger, l': Ledger)
    requires Shrinks(l, l')
    ensures forall g: nat, x :: Holds(l', g, x) ==> Holds(l, g, x) && (HasSigned(l, x) ==> HasSigned(l', x))
  {
  }

  /** Losing the un-rotated token of a grant leaves nobody to extend it. */
  lemma LosingLiveKills(l: Ledger, l': Ledger, t: string)
    requires OneHolder(l) && Shrinks(l, l') && t in l.live && t !in l'.live
    ensures Dead(l', l.live[t].grant)
  {
    var g := l.live[t].grant;
    ShrinksHolders(l, l');
    assert Holds(l, g, Token(t)) && !Holds(l', g, Token(t));
  }

  lemma ShrinksKeepsInv(l: Ledger, l': Ledger)
    requires Inv(l) && Shrinks(l, l')
    ensures Inv(l')
  {
    ShrinksHolders(l, l');
    forall g: nat, x, y | Holds(l', g, x) && Holds(l', g, y) ensures x == y {
      assert Holds(l, g, x) && Holds(l, g, y);
    }
    forall i, x | 0 <= i < |l'.signed| && Holds(l', l'.signed[i].grant, x) && !HasSigned(l', x)
      ensures l'.signed[i].gen < l'.issued[l'.signed[i].grant]
    {
      assert Holds(l, l.signed[i].grant, x) && !HasSigned(l, x);
    }
  }

  lemma OpensKeepsDistinct(l: Ledger, l': Ledger, c: string)
    requires Shape(l) && Distinct(l) && Opens(l, l', c)
    ensures Distinct(l')
  {
  }

  lemma OpensHolders(l: Ledger, l': Ledger, c: string, g: nat, x: Holder)
    requires Shape(l) && Opens(l, l', c) && Holds(l', g, x)
    ensures if g < |l.issued| then Holds(l, g, x) && HasSigned(l', x) == HasSigned(l, x) else x == Code(c)
  {
  }

  lemma OpensKeepsInv(l: Ledger, l': Ledger, c: string)
    requires Inv(l) && Opens(l, l', c)
    ensures Inv(l')
  {
    OpensKeepsDistinct(l, l', c);
    forall g: nat, x, y | Holds(l', g, x) && Holds(l', g, y) ensures x == y {
      OpensHolders(l, l', c, g, x);
      OpensHolders(l, l', c, g, y);
    }
    forall i, x | 0 <= i < |l'.signed| && Holds(l', l'.signed[i].grant, x) && !HasSigned(l', x)
      ensures l'.signed[i].gen < l'.issued[l'.signed[i].grant]
    {
      OpensHolders(l, l', c, l.signed[i].grant, x);
    }
  }

  /** On grant `g` the role of holder passes from `a` to `b`; nobody else gains it. */
  ghost predicate Handoff(l: Ledger, l': Ledger, g: nat, a: Holder, b: Holder) {
    && Holds(l, g, a)
    && (forall k: nat, x | Holds(l', k, x) :: (Holds(l, k, x) && !(k == g && x == a)) || (k == g && x == b))
  }

  lemma HandoffKeepsOneHolder(l: Ledger, l': Ledger, g: nat, a: Holder, b: Holder)
    requires OneHolder(l) && Handoff(l, l', g, a, b)
    ensures OneHolder(l')
  {
    forall k: nat, x, y | Holds(l', k, x) && Holds(l', k, y) ensures x == y {
      assert k == g ==> Holds(l, g, a);
    }
  }

  lemma HandoffKeepsSignedBelow(l: Ledger, l': Ledger, g: nat, a: Holder, b: Holder)
    requires Shape(l) && Shape(l') && SignedBelow(l) && Handoff(l, l', g, a, b)
    requires !HasSigned(l, a) && l'.signed == l.signed && l'.issued == l.issued
    requires forall x :: HasSigned(l, x) ==> HasSigned(l', x)
    ensures SignedBelow(l')
  {
    forall i, x | 0 <= i < |l'.signed| && Holds(l', l'.signed[i].grant, x) && !HasSigned(l', x)
      ensures l'.signed[i].gen < l'.issued[l'.signed[i].grant]
    {
      var y := if l.signed[i].grant == g then a else x;
      assert Holds(l, l.signed[i].grant, y) && !HasSigned(l, y);
    }
  }

  lemma TakesHandsOff(l: Ledger, l': Ledger, c: string, h: nat)
    requires Takes(l, l', c, h) && Distinct(l) && Submap(l.open, l.codes)
    ensures Handoff(l, l', l.open[c], Code(c), Request(h))
  {
    assert Holds(l, l.open[c], Code(c));
  }

  lemma TakesKeepsInv(l: Ledger, l': Ledger, c: string, h: nat)
    requires Inv(l) && Takes(l, l', c, h)
    ensures Inv(l')
  {
    TakesHandsOff(l, l', c, h);
    HandoffKeepsOneHolder(l, l', l.open[c], Code(c), Request(h));
    HandoffKeepsSignedBelow(l, l', l.open[c], Code(c), Request(h));
  }

  lemma RotatesHandsOff(l: Ledger, l': Ledger, t: string, h: nat)
    requires Rotates(l, l', t, h)
    ensures Handoff(l, l', l.live[t].grant, Token(t), Request(h))
  {
    assert Holds(l, l.live[t].grant, Token(t));
  }

  lemma RotatesKeepsInv(l: Ledger, l': Ledger, t: string, h: nat)
    requires Inv(l) && Rotates(l, l', t, h)
    ensures Inv(l')
  {
    RotatesHandsOff(l, l', t, h);
    HandoffKeepsOneHolder(l, l', l.live[t].grant, Token(t), Request(h));
    HandoffKeepsSignedBelow(l, l', l.live[t].grant, Token(t), Request(h));
  }

  lemma SignsHolders(l: Ledger, l': Ledger, h: nat)
    requires Signs(l, l', h)
    ensures forall g: nat, x :: Holds(l', g, x) <==> Holds(l, g, x)
    ensures forall x :: HasSigned(l', x) <==> HasSigned(l, x) || x == Request(h)
  {
  }

  lemma SignsKeepsOrder(l: Ledger, l': Ledger, h: nat)
    requires Shape(l) && Counted(l) && InOrder(l.signed) && SignedBelow(l) && Signs(l, l', h)
    ensures InOrder(l'.signed)
  {
    var link := l.work[h].link;
    assert Holds(l, link.grant, Request(h)) && !HasSigned(l, Request(h));
    assert l.issued[link.grant] == link.gen;
  }

  lemma SignsKeepsInv(l: Ledger, l': Ledger, h: nat)
    requires Inv(l) && Signs(l, l', h)
    ensures Inv(l')
  {
    SignsHolders(l, l', h);
    SignsKeepsOrder(l, l', h);
    forall g: nat, x, y | Holds(l', g, x) && Holds(l', g, y) ensures x == y {
      assert Holds(l, g, x) && Holds(l, g, y);
    }
    SignsKeepsSignedBelow(l, l', h);
  }

  lemma SignsKeepsSignedBelow(l: Ledger, l': Ledger, h: nat)
    requires Shape(l) && Counted(l) && OneHolder(l) && SignedBelow(l) && Signs(l, l', h) && Shape(l')
    ensures SignedBelow(l')
  {
    SignsHolders(l, l', h);
    var link := l.work[h].link;
    assert Holds(l, link.grant, Request(h));
    forall i, x | 0 <= i < |l'.signed| && Holds(l', l'.signed[i].grant, x) && !HasSigned(l', x)
      ensures l'.signed[i].gen < l'.issued[l'.signed[i].grant]
    {
      assert Holds(l, l'.signed[i].grant, x) && x != Request(h);
    }
  }

  lemma StoresHandsOff(l: Ledger, l': Ledger, h: nat, t: string)
    requires Stores(l, l', h, t)
    ensures Handoff(l, l', l.work[h].link.grant, Request(h), Token(t))
  {
    assert Holds(l, l.work[h].link.grant, Request(h));
  }

  /** With the request as the only holder, nothing else of its grant is open, live or in work. */
  lemma StoresAlone(l: Ledger, h: nat)
    requires OneHolder(l) && h in l.work
    ensures forall c | c in l.open :: l.open[c] != l.work[h].link.grant
    ensures forall u | u in l.live :: l.live[u].grant != l.work[h].link.grant
    ensures forall k | k in l.work && k != h :: l.work[k].link.grant != l.work[h].link.grant
  {
    var g := l.work[h].link.grant;
    assert Holds(l, g, Request(h));
    forall c | c in l.open ensures l.open[c] != g { assert Holds(l, l.open[c], Code(c)); }
    forall u | u in l.live ensures l.live[u].grant != g { assert Holds(l, l.live[u].grant, Token(u)); }
    forall k | k in l.work && k != h ensures l.work[k].link.grant != g { assert Holds(l, l.work[k].link.grant, Request(k)); }
  }

  lemma StoresKeepsCounted(l: Ledger, l': Ledger, h: nat, t: string)
    requires Shape(l) && Counted(l) && OneHolder(l) && Stores(l, l', h, t) && Shape(l')
    ensures Counted(l')
  {
    StoresAlone(l, h);
  }

  lemma StoresKeepsSignedBelow(l: Ledger, l': Ledger, h: nat, t: string)
    requires Shape(l) && Counted(l) && SignedBelow(l) && Stores(l, l', h, t) && Shape(l')
    ensures SignedBelow(l')
  {
    var g := l.work[h].link.grant;
    assert l.issued[g] == l.work[h].link.gen;
    forall i, x | 0 <= i < |l'.signed| && Holds(l', l'.signed[i].grant, x) && !HasSigned(l', x)
      ensures l'.signed[i].gen < l'.issued[l'.signed[i].grant]
    {
      if l.signed[i].grant != g {
        assert Holds(l, l.signed[i].grant, x) && !HasSigned(l, x);
      }
    }
  }

  lemma StoresKeepsInv(l: Ledger, l': Ledger, h: nat, t: string)
    requires Inv(l) && Stores(l, l', h, t)
    ensures Inv(l')
  {
    StoresKeepsCounted(l, l', h, t);
    StoresKeepsSignedBelow(l, l', h, t);
    StoresHandsOff(l, l', h, t);
    HandoffKeepsOneHolder(l, l', l.work[h].link.grant, Request(h), Token(t));
  }

  lemma NextKeepsInv(l: Ledger, l': Ledger)
    requires Inv(l) && Next(l, l')
    ensures Inv(l')
  {
    if Shrinks(l, l') {
      ShrinksKeepsInv(l, l');
    } else if c :| Opens(l, l', c) {
      OpensKeepsInv(l, l', c);
    } else if c, h :| Takes(l, l', c, h) {
      TakesKeepsInv(l, l', c, h);
    } else if t, h :| Rotates(l, l', t, h) {
      RotatesKeepsInv(l, l', t, h);
    } else if h :| Signs(l, l', h) {
      SignsKeepsInv(l, l', h);
    } else {
      var h, t :| Stores(l, l', h, t);
      StoresKeepsInv(l, l', h, t);
    }
  }

  // ── Consequences for one grant ────────────────────────────────────────────

  /** The links signed for grant `g`. */
  function SignedFor(signed: seq<Link>, g: nat): seq<Link> {
    if signed == [] then []
    else
      var rest := SignedFor(signed[..|signed| - 1], g);
      if signed[|signed| - 1].grant == g then rest + [signed[|signed| - 1]] else rest
  }

  /** Whoever holds an existing grant after a step descends from a holder before it. */
  lemma HoldersDescend(l: Ledger, l': Ledger, g: nat, x: Holder) returns (y: Holder)
    requires Next(l, l') && g < |l.issued| && Holds(l', g, x)
    ensures Holds(l, g, y)
  {
    y := x;
    if c, h :| Takes(l, l', c, h) {
      if x == Request(h) { y := Code(c); }
    } else if t, h :| Rotates(l, l', t, h) {
      if x == Request(h) { y := Token(t); }
    } else if h, t :| Stores(l, l', h, t) {
      if x == Token(t) { y := Request(h); }
    }
  }

  lemma SignedForAppend(signed: seq<Link>, x: Link, g: nat)
    ensures SignedFor(signed + [x], g) == SignedFor(signed, g) + (if x.grant == g then [x] else [])
  {
    assert (signed + [x])[..|signed|] == signed;
  }

  /** Signing for a grant takes a holder. */
  lemma SigningTakesHolder(l: Ledger, l': Ledger, g: nat)
    requires Next(l, l') && Dead(l, g)
    ensures SignedFor(l'.signed, g) == SignedFor(l.signed, g)
  {
    if h :| Signs(l, l', h) {
      assert Holds(l, l.work[h].link.grant, Request(h));
      SignedForAppend(l.signed, l.work[h].link, g);
    }
  }

  /** A grant with no holder never gets one again and never signs again. */
  lemma DeadStaysDead(l: Ledger, l': Ledger, g: nat)
    requires Inv(l) && Next(l, l') && g < |l.issued| && Dead(l, g)
    ensures g < |l'.issued| && Dead(l', g)
    ensures SignedFor(l'.signed, g) == SignedFor(l.signed, g)
  {
    forall x | Holds(l', g, x) ensures false { var y := HoldersDescend(l, l', g, x); }
    SigningTakesHolder(l, l', g);
  }
}
