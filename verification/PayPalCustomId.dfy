// The `custom_id` that carries a PayPal checkout's subscriber through to the
// webhook: printed as user:product:plan:seats, split again on the first three colons.

module PayPalCustomId {
  import opened Prelude
  import D = Decimal

  // ── UUIDs ─────────────────────────────────────────────────────────────────

  newtype Byte = x: int | 0 <= x < 256

  type Uuid = bytes: seq<Byte> | |bytes| == 16 witness seq(16, _ => 0)

  function HexDigit(d: nat): char
    requires d < 16
  {
    if d < 10 then '0' + d as char else 'a' + (d - 10) as char
  }

  function HexValue(c: char): Option<nat> {
    if '0' <= c <= '9' then Some((c - '0') as nat)
    else if 'a' <= c <= 'f' then Some((c - 'a') as nat + 10)
    else if 'A' <= c <= 'F' then Some((c - 'A') as nat + 10)
    else None
  }

  function PrintBytes(bytes: seq<Byte>): (s: string)
    ensures |s| == 2 * |bytes|
  {
    if bytes == [] then ""
    else [HexDigit(bytes[0] as int / 16), HexDigit(bytes[0] as int % 16)] + PrintBytes(bytes[1..])
  }

  function ParseBytes(s: string): (r: Option<seq<Byte>>)
    ensures r.Some? ==> |s| == 2 * |r.value|
  {
    if s == "" then Some([])
    else if |s| == 1 then None
    else
      var high, low, rest := HexValue(s[0]), HexValue(s[1]), ParseBytes(s[2..]);
      if high.None? || low.None? || rest.None? || high.value > 15 || low.value > 15 then None
      else Some([(high.value * 16 + low.value) as Byte] + rest.value)
  }

  /** `Display`: lower-case hex, grouped 8-4-4-4-12. */
  function PrintUuid(u: Uuid): (s: string)
    ensures |s| == 36
  {
    var h := PrintBytes(u);
    h[..8] + "-" + h[8..12] + "-" + h[12..16] + "-" + h[16..20] + "-" + h[20..]
  }

  predicate Hyphenated(s: string) { |s| == 36 && s[8] == '-' && s[13] == '-' && s[18] == '-' && s[23] == '-' }

  /** `FromStr`: hyphenated, bare hex, or hyphenated in braces; either case. */
  function ParseUuid(s: string): Option<Uuid> {
    var hex :=
      if |s| == 32 then s
      else if Hyphenated(s) then s[..8] + s[9..13] + s[14..18] + s[19..23] + s[24..]
      else if |s| == 38 && s[0] == '{' && s[37] == '}' && Hyphenated(s[1..37])
        then s[1..9] + s[10..14] + s[15..19] + s[20..24] + s[25..37]
      else "?";
    var bytes := ParseBytes(hex);
    if bytes.Some? && |bytes.value| == 16 then Some(bytes.value) else None
  }

  lemma {:induction false} BytesRoundTrip(bytes: seq<Byte>)
    ensures ParseBytes(PrintBytes(bytes)) == Some(bytes)
    ensures ':' !in PrintBytes(bytes)
  {
    if bytes != [] {
      var b := bytes[0] as int;
      BytesRoundTrip(bytes[1..]);
      var s := PrintBytes(bytes);
      assert s[0] == HexDigit(b / 16) && s[1] == HexDigit(b % 16) && s[2..] == PrintBytes(bytes[1..]);
      assert (b / 16 * 16 + b % 16) as Byte == bytes[0];
      assert [bytes[0]] + bytes[1..] == bytes;
      assert s == [s[0], s[1]] + s[2..];
    }
  }

  lemma UuidRoundTrip(u: Uuid)
    ensures ParseUuid(PrintUuid(u)) == Some(u)
    ensures ':' !in PrintUuid(u)
  {
    var h, s := PrintBytes(u), PrintUuid(u);
    BytesRoundTrip(u);
    assert s[..8] == h[..8] && s[9..13] == h[8..12] && s[14..18] == h[12..16] && s[19..23] == h[16..20] && s[24..] == h[20..];
    assert h == h[..8] + h[8..12] + h[12..16] + h[16..20] + h[20..];
  }

  // ── Seat counts ───────────────────────────────────────────────────────────

  newtype Int16 = x: int | -0x8000 <= x < 0x8000

  function PrintInt(n: Int16): string {
    if n < 0 then "-" + D.Print(-(n as int)) else D.Print(n as int)
  }

  /** `str::parse::<i16>`: an optional sign, then digits, then the range check. */
  function ParseInt(s: string): Option<Int16> {
    var negative := s != "" && s[0] == '-';
    var digits := if s != "" && (s[0] == '-' || s[0] == '+') then s[1..] else s;
    if digits == "" || !D.AllDigits(digits) then None
    else
      var value: int := D.Value(digits);
      var n := if negative then -value else value;
      if -0x8000 <= n < 0x8000 then Some(n as Int16) else None
  }

  lemma IntRoundTrip(n: Int16)
    ensures ParseInt(PrintInt(n)) == Some(n)
  {
    var a: nat := if n < 0 then -(n as int) else n as int;
    D.ValueOfPrint(a);
    assert D.IsDigit(D.Print(a)[0]);
    if n < 0 { assert PrintInt(n)[1..] == D.Print(a); }
  }

  // ── Splitting ─────────────────────────────────────────────────────────────

  function Colon(s: string): (k: nat)
    ensures k <= |s| && ':' !in s[..k] && (k < |s| ==> s[k] == ':')
  {
    if s == "" || s[0] == ':' then 0
    else
      assert s[..1 + Colon(s[1..])] == [s[0]] + s[1..][..Colon(s[1..])];
      1 + Colon(s[1..])
  }

  /** `splitn(n, ':')`: at most `n` pieces, the last one keeping any further colons. */
  function SplitN(s: string, n: nat): (parts: seq<string>)
    ensures |parts| <= n
  {
    if n == 0 then []
    else if n == 1 || Colon(s) == |s| then [s]
    else [s[..Colon(s)]] + SplitN(s[Colon(s) + 1..], n - 1)
  }

  lemma {:induction false} ColonAt(s: string, k: nat)
    requires k < |s| && s[k] == ':' && ':' !in s[..k]
    ensures Colon(s) == k
  {
    if k > 0 {
      assert s[0] == s[..k][0];
      assert s[1..][..k - 1] == s[..k][1..];
      ColonAt(s[1..], k - 1);
    }
  }

  lemma SplitHead(head: string, rest: string, n: nat)
    requires ':' !in head && n >= 2
    ensures SplitN(head + ":" + rest, n) == [head] + SplitN(rest, n - 1)
  {
    var s := head + ":" + rest;
    assert s[..|head|] == head && s[|head|] == ':' && s[|head| + 1..] == rest;
    ColonAt(s, |head|);
  }

  // ── custom_id ─────────────────────────────────────────────────────────────

  datatype Checkout = Checkout(user: Uuid, product: string, plan: string, seats: Int16)

  function Print(c: Checkout): string {
    PrintUuid(c.user) + ":" + (c.product + ":" + (c.plan + ":" + PrintInt(c.seats)))
  }

  /** `create_subscription`: two plans, one product. */
  function CustomId(user: Uuid, plan: string, seats: Int16): Result<string> {
    if plan == "family" || plan == "professional" then Ok(Print(Checkout(user, "clann", plan, seats))) else Err(Validation)
  }

  /** `on_subscription_activated`: fewer than four parts or a bad user id is dropped; a bad seat count reads as 1. */
  function Parse(customId: string): Option<Checkout> {
    var parts := SplitN(customId, 4);
    if customId == "" || |parts| < 4 then None
    else
      var user := ParseUuid(parts[0]);
      if user.None? then None
      else
        var seats := ParseInt(parts[3]);
        Some(Checkout(user.value, parts[1], parts[2], if seats.Some? then seats.value else 1))
  }

  /** Whatever checkout prints, the webhook reads back, for every UUID, both plans and every i16. */
  lemma CheckoutRoundTrip(user: Uuid, plan: string, seats: Int16)
    requires CustomId(user, plan, seats).Ok?
    ensures Parse(CustomId(user, plan, seats).value) == Some(Checkout(user, "clann", plan, seats))
  {
    var c := Checkout(user, "clann", plan, seats);
    assert ':' !in c.product && ':' !in c.plan;
    ParsePrintIff(c);
  }

  lemma SplitPrinted(c: Checkout)
    requires ':' !in c.product && ':' !in c.plan
    ensures SplitN(Print(c), 4) == [PrintUuid(c.user), c.product, c.plan, PrintInt(c.seats)]
  {
    UuidRoundTrip(c.user);
    SplitFour(PrintUuid(c.user), c.product, c.plan, PrintInt(c.seats));
  }

  lemma SplitFour(a: string, b: string, c: string, d: string)
    requires ':' !in a && ':' !in b && ':' !in c
    ensures SplitN(a + ":" + (b + ":" + (c + ":" + d)), 4) == [a, b, c, d]
  {
    hide Colon;
    SplitHead(a, b + ":" + (c + ":" + d), 4);
    SplitHead(b, c + ":" + d, 3);
    SplitHead(c, d, 2);
  }

  lemma SplitsEarly(s: string, rest: string, n: nat)
    requires ':' in s && n >= 2
    ensures |SplitN(s + ":" + rest, n)| >= 1 && SplitN(s + ":" + rest, n)[0] != s
  {
    var k := Colon(s);
    assert s[..|s|] == s;
    assert k < |s|;
    assert s + ":" + rest == s[..k] + ":" + (s[k + 1..] + ":" + rest);
    SplitHead(s[..k], s[k + 1..] + ":" + rest, n);
    assert |s[..k]| < |s|;
  }

  /** The format carries any product and plan back exactly when neither contains a colon. */
  lemma ParsePrintIff(c: Checkout)
    ensures Parse(Print(c)) == Some(c) <==> (':' !in c.product && ':' !in c.plan)
  {
    UuidRoundTrip(c.user);
    IntRoundTrip(c.seats);
    if ':' !in c.product && ':' !in c.plan {
      SplitPrinted(c);
    } else {
      var rest := c.product + ":" + (c.plan + ":" + PrintInt(c.seats));
      SplitHead(PrintUuid(c.user), rest, 4);
      if ':' in c.product {
        SplitsEarly(c.product, c.plan + ":" + PrintInt(c.seats), 3);
      } else {
        SplitHead(c.product, c.plan + ":" + PrintInt(c.seats), 3);
        SplitsEarly(c.plan, PrintInt(c.seats), 2);
      }
    }
  }
}
