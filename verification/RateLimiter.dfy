// The in-memory sliding-window limiter: a per-IP deque of accepted timestamps
// against the rule it stands for — count the accepted calls of that IP in the
// closed window that ends now.

module RateLimiter {
  datatype Limits = Limits(max: nat, window: nat)

  type Deques = map<string, seq<nat>>

  /** `now.checked_sub(window).unwrap_or(now)` */
  function Cutoff(w: nat, now: nat): nat { if now >= w then now - w else now }

  /** Pop from the front while the front is older than the cutoff. */
  function PopOld(q: seq<nat>, cutoff: nat): (r: seq<nat>)
    ensures |r| <= |q|
  {
    if q != [] && q[0] < cutoff then PopOld(q[1..], cutoff) else q
  }

  function QueueOf(s: Deques, ip: string): seq<nat> { if ip in s then s[ip] else [] }

  /** One call on the deques: the new deques and the answer. */
  function CheckCall(l: Limits, s: Deques, ip: string, now: nat): (Deques, bool) {
    var q := PopOld(QueueOf(s, ip), Cutoff(l.window, now));
    if |q| >= l.max then (s[ip := q], false) else (s[ip := q + [now]], true)
  }

  class Limiter {
    const limits: Limits
    var state: Deques

    constructor (limits: Limits)
      ensures this.limits == limits && state == map[]
    {
      this.limits := limits;
      state := map[];
    }

    method Check(ip: string, now: nat) returns (ok: bool)
      modifies this`state
      ensures (state, ok) == CheckCall(limits, old(state), ip, now)
    {
      var cutoff := if now >= limits.window then now - limits.window else now;
      if ip !in state { state := state[ip := []]; }
      var timestamps: seq<nat> := state[ip];
      while timestamps != [] && timestamps[0] < cutoff
        invariant PopOld(timestamps, cutoff) == PopOld(QueueOf(old(state), ip), cutoff)
      {
        timestamps := timestamps[1..];
      }
      assert timestamps == PopOld(QueueOf(old(state), ip), cutoff);
      state := state[ip := timestamps];
      if |timestamps| >= limits.max {
        assert state == old(state)[ip := timestamps];
        return false;
      }
      state := state[ip := timestamps + [now]];
      assert state == old(state)[ip := timestamps + [now]];
      return true;
    }
  }

  // ── Runs, and the rule they should follow ─────────────────────────────────

  datatype Call = Call(ip: string, now: nat)

  function After(l: Limits, calls: seq<Call>): Deques {
    if calls == [] then map[] else CheckCall(l, After(l, calls[..|calls| - 1]), calls[|calls| - 1].ip, calls[|calls| - 1].now).0
  }

  /** The limiter's answer to the last call. */
  function Answer(l: Limits, calls: seq<Call>): bool
    requires calls != []
  {
    CheckCall(l, After(l, calls[..|calls| - 1]), calls[|calls| - 1].ip, calls[|calls| - 1].now).1
  }

  /** The calls the limiter accepted, in order. */
  function Accepted(l: Limits, calls: seq<Call>): seq<Call> {
    if calls == [] then []
    else if Answer(l, calls) then Accepted(l, calls[..|calls| - 1]) + [calls[|calls| - 1]]
    else Accepted(l, calls[..|calls| - 1])
  }

  /** Timestamps of one IP at or after `from`, in order. */
  function Recent(log: seq<Call>, ip: string, from: nat): (r: seq<nat>)
    ensures |r| <= |log| && (forall x :: x in r ==> x >= from)
  {
    if log == [] then []
    else
      var c := log[|log| - 1];
      if c.ip == ip && c.now >= from then Recent(log[..|log| - 1], ip, from) + [c.now] else Recent(log[..|log| - 1], ip, from)
  }

  function WindowStart(w: nat, now: nat): nat { if now >= w then now - w else 0 }

  /** Fewer than `max` of the calls accepted so far lie in the closed window ending now. */
  predicate RuleAllows(l: Limits, accepted: seq<Call>, c: Call) {
    |Recent(accepted, c.ip, WindowStart(l.window, c.now))| < l.max
  }

  predicate NonDecreasing(calls: seq<Call>) { forall i, j :: 0 <= i < j < |calls| ==> calls[i].now <= calls[j].now }

  predicate From(calls: seq<Call>, t: int) { forall i :: 0 <= i < |calls| ==> calls[i].now >= t }

  predicate UpTo(calls: seq<Call>, t: nat) { forall i :: 0 <= i < |calls| ==> calls[i].now <= t }

  predicate Sorted(q: seq<nat>) { forall i, j :: 0 <= i < j < |q| ==> q[i] <= q[j] }

  // ── One call more ─────────────────────────────────────────────────────────

  function Init(calls: seq<Call>): seq<Call>
    requires calls != []
  {
    calls[..|calls| - 1]
  }

  function Last(calls: seq<Call>): Call
    requires calls != []
  {
    calls[|calls| - 1]
  }

  /** The deque of the last caller's IP as that call leaves it after popping. */
  function Popped(l: Limits, calls: seq<Call>): seq<nat>
    requires calls != []
  {
    PopOld(QueueOf(After(l, Init(calls)), Last(calls).ip), Cutoff(l.window, Last(calls).now))
  }

  lemma QueueStep(l: Limits, calls: seq<Call>, ip: string)
    requires calls != []
    ensures Answer(l, calls) <==> |Popped(l, calls)| < l.max
    ensures QueueOf(After(l, calls), ip) ==
            if Last(calls).ip != ip then QueueOf(After(l, Init(calls)), ip)
            else if Answer(l, calls) then Popped(l, calls) + [Last(calls).now]
            else Popped(l, calls)
  {
  }

  lemma RecentSnoc(log: seq<Call>, c: Call, ip: string, from: nat)
    ensures Recent(log + [c], ip, from) ==
            if c.ip == ip && c.now >= from then Recent(log, ip, from) + [c.now] else Recent(log, ip, from)
  {
    assert (log + [c])[..|log|] == log;
  }

  lemma RecentStep(l: Limits, calls: seq<Call>, ip: string, from: nat)
    requires calls != []
    ensures Recent(Accepted(l, calls), ip, from) ==
            if Answer(l, calls) && Last(calls).ip == ip && Last(calls).now >= from
            then Recent(Accepted(l, Init(calls)), ip, from) + [Last(calls).now]
            else Recent(Accepted(l, Init(calls)), ip, from)
  {
    hide Recent, Answer;
    if Answer(l, calls) { RecentSnoc(Accepted(l, Init(calls)), Last(calls), ip, from); }
  }

  // ── With a clock that never goes back ─────────────────────────────────────

  lemma {:induction false} PopOldSorted(q: seq<nat>, c: nat)
    requires Sorted(q)
    ensures Sorted(PopOld(q, c)) && (forall i :: 0 <= i < |PopOld(q, c)| ==> PopOld(q, c)[i] >= c)
  {
    if q != [] {
      if q[0] < c { PopOldSorted(q[1..], c); }
    }
  }

  lemma {:induction false} PopOldSnoc(q: seq<nat>, x: nat, c: nat)
    requires Sorted(q + [x])
    ensures PopOld(q + [x], c) == if x < c then [] else PopOld(q, c) + [x]
  {
    if q == [] {
      assert PopOld([x], c) == if x < c then PopOld([x][1..], c) else [x];
    } else {
      assert (q + [x])[0] == q[0] && (q + [x])[1..] == q[1..] + [x];
      assert q[0] <= x by { assert (q + [x])[|q|] == x; }
      if q[0] < c { PopOldSnoc(q[1..], x, c); }
    }
  }

  lemma {:induction false} RecentSorted(log: seq<Call>, ip: string, from: nat, upTo: nat)
    requires NonDecreasing(log) && UpTo(log, upTo)
    ensures Sorted(Recent(log, ip, from))
    ensures forall i :: 0 <= i < |Recent(log, ip, from)| ==> Recent(log, ip, from)[i] <= upTo
  {
    if log != [] {
      assert UpTo(log[..|log| - 1], log[|log| - 1].now);
      RecentSorted(log[..|log| - 1], ip, from, log[|log| - 1].now);
    }
  }

  /** Popping to a later start is the same as looking only from there. */
  lemma {:induction false} PopOldIsRecent(log: seq<Call>, ip: string, from: nat, later: nat)
    requires NonDecreasing(log) && from <= later
    ensures PopOld(Recent(log, ip, from), later) == Recent(log, ip, later)
  {
    if log != [] {
      var init, c := log[..|log| - 1], log[|log| - 1];
      PopOldIsRecent(init, ip, from, later);
      if c.ip == ip && c.now >= from {
        assert UpTo(log, c.now);
        RecentSorted(log, ip, from, c.now);
        PopOldSnoc(Recent(init, ip, from), c.now, later);
        if c.now < later { NoneRecent(log, ip, later); }
      }
    }
  }

  lemma {:induction false} NoneRecent(log: seq<Call>, ip: string, later: nat)
    requires NonDecreasing(log) && log != [] && log[|log| - 1].now < later
    ensures Recent(log, ip, later) == []
  {
    if |log| > 1 { NoneRecent(log[..|log| - 1], ip, later); }
  }

  lemma {:induction false} AcceptedFrom(l: Limits, calls: seq<Call>)
    ensures forall c :: c in Accepted(l, calls) ==> c in calls
  {
    if calls != [] {
      AcceptedFrom(l, calls[..|calls| - 1]);
      assert calls == calls[..|calls| - 1] + [calls[|calls| - 1]];
    }
  }

  lemma {:induction false} AcceptedInOrder(l: Limits, calls: seq<Call>)
    requires NonDecreasing(calls)
    ensures NonDecreasing(Accepted(l, calls))
  {
    if calls != [] {
      var init, c := calls[..|calls| - 1], calls[|calls| - 1];
      AcceptedInOrder(l, init);
      AcceptedFrom(l, init);
      forall x | x in Accepted(l, init) ensures x.now <= c.now {
        assert x in init;
        var i :| 0 <= i < |init| && init[i] == x;
        assert calls[i] == x;
      }
    }
  }

  /** The start of the window at this IP's last call. */
  function LastStart(w: nat, calls: seq<Call>, ip: string): nat {
    if calls == [] then 0
    else if calls[|calls| - 1].ip == ip then WindowStart(w, calls[|calls| - 1].now)
    else LastStart(w, calls[..|calls| - 1], ip)
  }

  lemma {:induction false} LastStartBelow(w: nat, calls: seq<Call>, ip: string, now: nat)
    requires UpTo(calls, now)
    ensures LastStart(w, calls, ip) <= WindowStart(w, now)
  {
    if calls != [] && calls[|calls| - 1].ip != ip { LastStartBelow(w, calls[..|calls| - 1], ip, now); }
  }

  /** With every reading at least `window - 1`, the cutoff pops exactly what lies before the window. */
  lemma CutoffIsWindowStart(w: nat, log: seq<Call>, ip: string, from: nat, now: nat)
    requires NonDecreasing(log) && From(log, w - 1) && now + 1 >= w && from <= WindowStart(w, now)
    ensures PopOld(Recent(log, ip, from), Cutoff(w, now)) == Recent(log, ip, WindowStart(w, now))
  {
    if now >= w {
      PopOldIsRecent(log, ip, from, now - w);
    } else {
      PopOldIsRecent(log, ip, from, now);
      AllRecent(log, ip, now);
    }
  }

  lemma {:induction false} AllRecent(log: seq<Call>, ip: string, t: nat)
    requires From(log, t)
    ensures Recent(log, ip, t) == Recent(log, ip, 0)
  {
    if log != [] { AllRecent(log[..|log| - 1], ip, t); }
  }

  /** Each deque is the part of the accepted log its IP's last window still sees. */
  lemma {:induction false} DequesAreRecent(l: Limits, calls: seq<Call>, ip: string)
    requires NonDecreasing(calls) && From(calls, l.window - 1)
    ensures QueueOf(After(l, calls), ip) == Recent(Accepted(l, calls), ip, LastStart(l.window, calls, ip))
  {
    if calls != [] {
      hide After, Accepted, Answer, Recent, QueueOf, Popped;
      DequesAreRecent(l, Init(calls), ip);
      QueueStep(l, calls, ip);
      RecentStep(l, calls, ip, LastStart(l.window, calls, ip));
      if Last(calls).ip == ip { PoppedIsWindow(l, calls); }
    }
  }

  /** What the last call finds in its deque after popping: the accepted calls in its window. */
  lemma PoppedIsWindow(l: Limits, calls: seq<Call>)
    requires calls != [] && NonDecreasing(calls) && From(calls, l.window - 1)
    requires QueueOf(After(l, Init(calls)), Last(calls).ip) ==
             Recent(Accepted(l, Init(calls)), Last(calls).ip, LastStart(l.window, Init(calls), Last(calls).ip))
    ensures Popped(l, calls) == Recent(Accepted(l, Init(calls)), Last(calls).ip, WindowStart(l.window, Last(calls).now))
  {
    hide After, Accepted, Recent, QueueOf, PopOld;
    var init, c := Init(calls), Last(calls);
    AcceptedInOrder(l, init);
    AcceptedFrom(l, init);
    LastStartBelow(l.window, init, c.ip, c.now);
    assert From(Accepted(l, init), l.window - 1) by {
      forall i | 0 <= i < |Accepted(l, init)| ensures Accepted(l, init)[i].now >= l.window - 1 {
        assert Accepted(l, init)[i] in init;
      }
    }
    CutoffIsWindowStart(l.window, Accepted(l, init), c.ip, LastStart(l.window, init, c.ip), c.now);
  }

  /**
   * `check` accepts exactly when fewer than `max` earlier accepted calls of that
   * IP — and no other — lie in the closed window ending now.
   */
  lemma FollowsTheRule(l: Limits, calls: seq<Call>)
    requires calls != [] && NonDecreasing(calls) && From(calls, l.window - 1)
    ensures Answer(l, calls) <==> RuleAllows(l, Accepted(l, Init(calls)), Last(calls))
  {
    hide After, Accepted, Recent, QueueOf, Answer, Popped;
    DequesAreRecent(l, Init(calls), Last(calls).ip);
    PoppedIsWindow(l, calls);
    QueueStep(l, calls, Last(calls).ip);
  }

  /** Over any run at all, even with the clock jumping, no deque outgrows the limit. */
  lemma {:induction false} DequesBounded(l: Limits, calls: seq<Call>, ip: string)
    ensures |QueueOf(After(l, calls), ip)| <= l.max
  {
    if calls != [] { DequesBounded(l, calls[..|calls| - 1], ip); }
  }

  lemma {:induction false} PopOldBounded(q: seq<nat>, c: nat, t: nat)
    requires forall i :: 0 <= i < |q| ==> q[i] <= t
    ensures forall i :: 0 <= i < |PopOld(q, c)| ==> PopOld(q, c)[i] <= t
  {
    if q != [] && q[0] < c { PopOldBounded(q[1..], c, t); }
  }

  /** With a clock that never goes back, at whatever reading it starts, every deque is sorted and holds no future reading. */
  lemma {:induction false} DequesSorted(l: Limits, calls: seq<Call>, ip: string)
    requires NonDecreasing(calls)
    ensures Sorted(QueueOf(After(l, calls), ip))
    ensures forall i :: 0 <= i < |QueueOf(After(l, calls), ip)| ==>
              calls != [] && QueueOf(After(l, calls), ip)[i] <= Last(calls).now
  {
    if calls != [] {
      hide After, Answer, PopOld;
      var q := QueueOf(After(l, Init(calls)), ip);
      DequesSorted(l, Init(calls), ip);
      assert Init(calls) != [] ==> Last(Init(calls)).now <= Last(calls).now;
      QueueStep(l, calls, ip);
      PopOldSorted(q, Cutoff(l.window, Last(calls).now));
      PopOldBounded(q, Cutoff(l.window, Last(calls).now), Last(calls).now);
    }
  }

  function Only(calls: seq<Call>, ip: string): seq<Call> {
    if calls == [] then []
    else if calls[|calls| - 1].ip == ip then Only(calls[..|calls| - 1], ip) + [calls[|calls| - 1]]
    else Only(calls[..|calls| - 1], ip)
  }

  /** Calls of other IPs leave this IP's deque, and so its answers, as they would be without them. */
  lemma {:induction false} OthersDoNotMatter(l: Limits, calls: seq<Call>, ip: string)
    ensures QueueOf(After(l, calls), ip) == QueueOf(After(l, Only(calls, ip)), ip)
    ensures calls != [] && Last(calls).ip == ip ==> Only(calls, ip) != [] && Answer(l, calls) == Answer(l, Only(calls, ip))
  {
    if calls != [] {
      hide After, Answer, QueueOf;
      OthersDoNotMatter(l, Init(calls), ip);
      QueueStep(l, calls, ip);
      if Last(calls).ip == ip {
        var only := Only(calls, ip);
        assert Init(only) == Only(Init(calls), ip) && Last(only) == Last(calls);
        QueueStep(l, only, ip);
      }
    }
  }

  // ── Before one window of uptime ───────────────────────────────────────────

  function Copies(c: Call, n: nat): (r: seq<Call>)
    ensures |r| == n && forall i :: 0 <= i < n ==> r[i] == c
  {
    seq(n, i => c)
  }

  lemma {:induction false} BurstFills(l: Limits, ip: string, t: nat, n: nat)
    requires n <= l.max
    ensures var calls := Copies(Call(ip, t), n);
            && QueueOf(After(l, calls), ip) == seq(n, i => t)
            && Accepted(l, calls) == calls
            && (forall from: nat :: from <= t ==> |Recent(calls, ip, from)| == n)
    decreases n
  {
    if n > 0 {
      var calls := Copies(Call(ip, t), n);
      assert calls[..n - 1] == Copies(Call(ip, t), n - 1);
      BurstFills(l, ip, t, n - 1);
      var q := seq(n - 1, i => t);
      assert Cutoff(l.window, t) <= t;
      assert PopOld(q, Cutoff(l.window, t)) == q;
      assert q + [t] == seq(n, i => t);
      assert Copies(Call(ip, t), n - 1) + [Call(ip, t)] == calls;
    }
  }

  /** While the clock reads less than the window, the fallback forgets everything before the current instant. */
  lemma FallbackForgets(l: Limits, ip: string, t: nat, now: nat)
    requires l.max > 0 && t < now < l.window
    ensures var burst := Copies(Call(ip, t), l.max);
            && Answer(l, burst + [Call(ip, now)])
            && !RuleAllows(l, Accepted(l, burst), Call(ip, now))
  {
    var burst := Copies(Call(ip, t), l.max);
    BurstFills(l, ip, t, l.max);
    assert (burst + [Call(ip, now)])[..l.max] == burst;
    AllPopped(seq(l.max, i => t), now);
  }

  lemma {:induction false} AllPopped(q: seq<nat>, c: nat)
    requires forall i :: 0 <= i < |q| ==> q[i] < c
    ensures PopOld(q, c) == []
  {
    if q != [] { AllPopped(q[1..], c); }
  }

  /** All runs whose readings start at `start` follow the rule. */
  ghost predicate FollowsFrom(l: Limits, start: nat) {
    forall calls :: calls != [] && NonDecreasing(calls) && From(calls, start) ==>
      (Answer(l, calls) <==> RuleAllows(l, Accepted(l, Init(calls)), Last(calls)))
  }

  /** The clock must have run for one window (less an instant) before the first call; otherwise the rule is broken by some run. */
  lemma FollowsTheRuleIff(l: Limits, start: nat)
    ensures FollowsFrom(l, start) <==> (l.max == 0 || start + 1 >= l.window)
  {
    hide After, Accepted, Answer, RuleAllows;
    if l.max == 0 || start + 1 >= l.window {
      forall calls | calls != [] && NonDecreasing(calls) && From(calls, start)
        ensures Answer(l, calls) <==> RuleAllows(l, Accepted(l, Init(calls)), Last(calls))
      {
        if l.max == 0 {
          NobodyAllowed(l, calls);
        } else {
          FollowsTheRule(l, calls);
        }
      }
    } else {
      var burst := Copies(Call("", start), l.max);
      var calls := burst + [Call("", start + 1)];
      FallbackForgets(l, "", start, start + 1);
      assert Init(calls) == burst && Last(calls) == Call("", start + 1);
      assert NonDecreasing(calls) && From(calls, start);
    }
  }

  lemma NobodyAllowed(l: Limits, calls: seq<Call>)
    requires l.max == 0 && calls != []
    ensures !Answer(l, calls) && !RuleAllows(l, Accepted(l, Init(calls)), Last(calls))
  {
    hide After, Accepted, Recent;
  }

  // ── With readings out of order ────────────────────────────────────────────

  /** In the order one IP's lock is taken, no reading is more than `d` behind an earlier one. */
  predicate SkewAtMost(calls: seq<Call>, ip: string, d: nat) {
    forall i, j :: 0 <= i < j < |calls| && calls[i].ip == ip && calls[j].ip == ip ==> calls[i].now <= calls[j].now + d
  }

  predicate UpToFor(calls: seq<Call>, ip: string, t: nat) {
    forall i :: 0 <= i < |calls| && calls[i].ip == ip ==> calls[i].now <= t
  }

  function CountFrom(q: seq<nat>, c: nat): nat {
    if q == [] then 0 else (if q[0] >= c then 1 else 0) + CountFrom(q[1..], c)
  }

  lemma {:induction false} CountSnoc(q: seq<nat>, x: nat, c: nat)
    ensures CountFrom(q + [x], c) == CountFrom(q, c) + (if x >= c then 1 else 0)
  {
    if q == [] {
      assert [x][1..] == [];
    } else {
      assert (q + [x])[0] == q[0] && (q + [x])[1..] == q[1..] + [x];
      CountSnoc(q[1..], x, c);
    }
  }

  lemma {:induction false} CountPopped(q: seq<nat>, cutoff: nat, c: nat)
    requires cutoff <= c
    ensures CountFrom(PopOld(q, cutoff), c) == CountFrom(q, c)
  {
    if q != [] && q[0] < cutoff { CountPopped(q[1..], cutoff, c); }
  }

  lemma {:induction false} CountAtMostLength(q: seq<nat>, c: nat)
    ensures CountFrom(q, c) <= |q|
  {
    if q != [] { CountAtMostLength(q[1..], c); }
  }

  /** As long as no reading of this IP has passed `c + window`, nothing at or after `c` has been popped. */
  lemma {:induction false} NothingRecentPopped(l: Limits, calls: seq<Call>, ip: string, c: nat)
    requires From(calls, l.window) && UpToFor(calls, ip, c + l.window)
    ensures CountFrom(QueueOf(After(l, calls), ip), c) == |Recent(Accepted(l, calls), ip, c)|
  {
    if calls != [] {
      hide After, Accepted, Answer, Recent, QueueOf, CountFrom, PopOld;
      NothingRecentPopped(l, Init(calls), ip, c);
      QueueStep(l, calls, ip);
      RecentStep(l, calls, ip, c);
      if Last(calls).ip == ip {
        CountPopped(QueueOf(After(l, Init(calls)), ip), Cutoff(l.window, Last(calls).now), c);
        CountSnoc(Popped(l, calls), Last(calls).now, c);
      }
    }
  }

  /** How many accepted timestamps of one IP lie in a closed interval. */
  function Between(log: seq<Call>, ip: string, a: nat, b: nat): nat {
    if log == [] then 0
    else
      var c := log[|log| - 1];
      Between(log[..|log| - 1], ip, a, b) + (if c.ip == ip && a <= c.now <= b then 1 else 0)
  }

  lemma {:induction false} BetweenAtMostRecent(log: seq<Call>, ip: string, a: nat, b: nat)
    ensures Between(log, ip, a, b) <= |Recent(log, ip, a)|
  {
    if log != [] { BetweenAtMostRecent(log[..|log| - 1], ip, a, b); }
  }

  lemma BetweenSnoc(log: seq<Call>, c: Call, ip: string, a: nat, b: nat)
    ensures Between(log + [c], ip, a, b) == Between(log, ip, a, b) + (if c.ip == ip && a <= c.now <= b then 1 else 0)
  {
    assert (log + [c])[..|log|] == log;
  }

  /**
   * Serialised per key with readings out of order by at most `d`: a closed
   * interval of length `window - d` never holds more than `max` accepted calls of one IP.
   */
  lemma {:induction false} SkewedBound(l: Limits, calls: seq<Call>, ip: string, a: nat, b: nat, d: nat)
    requires SkewAtMost(calls, ip, d) && From(calls, l.window) && b + d <= a + l.window
    ensures Between(Accepted(l, calls), ip, a, b) <= l.max
  {
    hide After, Answer, Recent, QueueOf, CountFrom, PopOld, Between;
    if calls == [] {
      EmptyBetween(ip, a, b);
    } else {
      var c := Last(calls);
      SkewedBound(l, Init(calls), ip, a, b, d);
      if Answer(l, calls) {
        BetweenSnoc(Accepted(l, Init(calls)), c, ip, a, b);
        if c.ip == ip && a <= c.now <= b {
          assert UpToFor(calls, ip, a + l.window);
          NothingRecentPopped(l, calls, ip, a);
          DequesBounded(l, calls, ip);
          CountAtMostLength(QueueOf(After(l, calls), ip), a);
          BetweenAtMostRecent(Accepted(l, calls), ip, a, b);
        }
      }
    }
  }

  lemma EmptyBetween(ip: string, a: nat, b: nat)
    ensures Between([], ip, a, b) == 0
  {
  }

  /** A burst, one reading past its window, and one reading `d` behind that. */
  function LateReader(l: Limits, ip: string, t: nat, d: nat): seq<Call>
    requires d <= l.window + 1
  {
    Copies(Call(ip, t), l.max) + [Call(ip, t + l.window + 1), Call(ip, t + l.window + 1 - d)]
  }

  /** All of a late reader's calls are accepted, the whole burst and the late call among them. */
  lemma LateReaderAccepted(l: Limits, ip: string, t: nat, d: nat)
    requires l.max >= 2 && d <= l.window + 1 && t >= l.window
    ensures var calls := LateReader(l, ip, t, d);
            && SkewAtMost(calls, ip, d) && From(calls, l.window)
            && Between(Accepted(l, calls), ip, t, t + l.window + 1 - d) > l.max
  {
    hide After, Answer, Accepted, Recent, Between, Popped, PopOld, QueueOf;
    var b := t + l.window + 1 - d;
    var c1, c2 := Call(ip, t + l.window + 1), Call(ip, b);
    var burst := Copies(Call(ip, t), l.max);
    BurstFills(l, ip, t, l.max);
    OneMore(l, burst, c1);
    AllPopped(seq(l.max, i => t), t + 1);
    OneMore(l, burst + [c1], c2);
    assert burst + [c1] + [c2] == LateReader(l, ip, t, d);
    BurstBetween(Call(ip, t), l.max, b);
    BetweenSnoc(burst, c1, ip, t, b);
    BetweenSnoc(burst + [c1], c2, ip, t, b);
  }

  /** With a single slot an accepted call always found the deque empty, so it comes a whole window after the one before. */
  lemma {:induction false} SingleSlot(l: Limits, calls: seq<Call>, ip: string)
    requires l.max == 1 && From(calls, l.window)
    ensures QueueOf(After(l, calls), ip) == [] ==> forall i :: 0 <= i < |Accepted(l, calls)| ==> Accepted(l, calls)[i].ip != ip
    ensures QueueOf(After(l, calls), ip) != [] ==>
              forall i :: 0 <= i < |Accepted(l, calls)| && Accepted(l, calls)[i].ip == ip ==>
                Accepted(l, calls)[i].now <= QueueOf(After(l, calls), ip)[0]
  {
    if calls != [] {
      hide After, Answer, Recent, PopOld;
      var q := QueueOf(After(l, Init(calls)), ip);
      SingleSlot(l, Init(calls), ip);
      DequesBounded(l, Init(calls), ip);
      QueueStep(l, calls, ip);
      PopOne(q, Cutoff(l.window, Last(calls).now));
    }
  }

  lemma PopOne(q: seq<nat>, cutoff: nat)
    requires |q| <= 1
    ensures PopOld(q, cutoff) == if q != [] && q[0] < cutoff then [] else q
  {
  }

  /** So a single slot admits at most one call in any closed interval of a whole window, however skewed the readings. */
  lemma {:induction false} SingleSlotBound(l: Limits, calls: seq<Call>, ip: string, a: nat, b: nat)
    requires l.max == 1 && From(calls, l.window) && b <= a + l.window
    ensures Between(Accepted(l, calls), ip, a, b) <= 1
  {
    hide After, Answer, Recent, QueueOf, PopOld, Between;
    if calls == [] {
      EmptyBetween(ip, a, b);
    } else {
      SingleSlotBound(l, Init(calls), ip, a, b);
      if Answer(l, calls) {
        var log, c := Accepted(l, Init(calls)), Last(calls);
        BetweenSnoc(log, c, ip, a, b);
        if c.ip == ip && a <= c.now <= b {
          SingleSlotGap(l, calls);
          NoneBetween(log, ip, a, b);
        }
      }
    }
  }

  /** An accepted call in a single slot is more than a window later than every call of its IP accepted before. */
  lemma SingleSlotGap(l: Limits, calls: seq<Call>)
    requires l.max == 1 && calls != [] && From(calls, l.window) && Answer(l, calls)
    ensures forall i :: 0 <= i < |Accepted(l, Init(calls))| && Accepted(l, Init(calls))[i].ip == Last(calls).ip ==>
              Accepted(l, Init(calls))[i].now + l.window < Last(calls).now
  {
    hide After, Answer, Accepted, PopOld;
    var q := QueueOf(After(l, Init(calls)), Last(calls).ip);
    SingleSlot(l, Init(calls), Last(calls).ip);
    DequesBounded(l, Init(calls), Last(calls).ip);
    QueueStep(l, calls, Last(calls).ip);
    PopOne(q, Cutoff(l.window, Last(calls).now));
  }

  lemma {:induction false} NoneBetween(log: seq<Call>, ip: string, a: nat, b: nat)
    requires forall i :: 0 <= i < |log| && log[i].ip == ip ==> log[i].now < a || b < log[i].now
    ensures Between(log, ip, a, b) == 0
  {
    if log != [] { NoneBetween(log[..|log| - 1], ip, a, b); }
  }

  lemma {:induction false} NoSlots(l: Limits, calls: seq<Call>)
    requires l.max == 0
    ensures Accepted(l, calls) == []
  {
    if calls != [] {
      NoSlots(l, Init(calls));
      NobodyAllowed(l, calls);
    }
  }

  /** No run with skew at most `d` ever accepts more than `max` calls of one IP within a closed interval of this length. */
  ghost predicate NeverExceeds(l: Limits, d: nat, length: nat) {
    forall calls, ip, a: nat, b: nat :: SkewAtMost(calls, ip, d) && From(calls, l.window) && b <= a + length ==>
      WithinLimit(l, calls, ip, a, b)
  }

  predicate WithinLimit(l: Limits, calls: seq<Call>, ip: string, a: nat, b: nat) {
    Between(Accepted(l, calls), ip, a, b) <= l.max
  }

  /**
   * The exact interval the limit holds for: `window - d` in general, a whole
   * window when there is a single slot, any at all when there is none.
   */
  lemma SkewedBoundIsTight(l: Limits, d: nat, length: nat)
    ensures NeverExceeds(l, d, length) <==>
            (l.max == 0 || (if l.max == 1 then length <= l.window else length + d <= l.window))
  {
    hide After, Answer, Accepted, Between, SkewAtMost, From;
    if l.max == 0 || (if l.max == 1 then length <= l.window else length + d <= l.window) {
      forall calls, ip, a: nat, b: nat | SkewAtMost(calls, ip, d) && From(calls, l.window) && b <= a + length
        ensures WithinLimit(l, calls, ip, a, b)
      {
        if l.max == 0 {
          NoSlots(l, calls);
          EmptyBetween(ip, a, b);
        } else if l.max == 1 {
          SingleSlotBound(l, calls, ip, a, b);
        } else {
          SkewedBound(l, calls, ip, a, b, d);
        }
      }
    } else {
      ExceedsBeyond(l, d, length);
    }
  }

  /** A run that exceeds the limit within any longer interval. */
  lemma ExceedsBeyond(l: Limits, d: nat, length: nat)
    requires l.max > 0 && (if l.max == 1 then length > l.window else length + d > l.window)
    ensures !NeverExceeds(l, d, length)
  {
    hide After, Answer, Accepted, Between, From;
    var t := l.window;
    if l.max == 1 {
      var calls := [Call("", t), Call("", t + l.window + 1)];
      TwoAccepted(l, t);
      Wider(Accepted(l, calls), "", t, t + l.window + 1, t + length);
      assert SkewAtMost(calls, "", d) && !WithinLimit(l, calls, "", t, t + length);
    } else {
      var e := if d <= l.window then d else l.window + 1;
      var calls := LateReader(l, "", t, e);
      LateReaderAccepted(l, "", t, e);
      Wider(Accepted(l, calls), "", t, t + l.window + 1 - e, t + length);
      assert SkewAtMost(calls, "", d) && !WithinLimit(l, calls, "", t, t + length);
    }
  }

  lemma TwoAccepted(l: Limits, t: nat)
    requires l.max == 1 && t >= l.window
    ensures var calls := [Call("", t), Call("", t + l.window + 1)];
            NonDecreasing(calls) && From(calls, l.window) && Between(Accepted(l, calls), "", t, t + l.window + 1) == 2
  {
    hide Answer, Recent, Popped;
    var c1, c2 := Call("", t), Call("", t + l.window + 1);
    assert After(l, []) == map[];
    OneMore(l, [], c1);
    OneMore(l, [c1], c2);
    assert [] + [c1] == [c1] && [c1] + [c2] == [c1, c2];
    BetweenSnoc([], c1, "", t, t + l.window + 1);
    BetweenSnoc([c1], c2, "", t, t + l.window + 1);
  }

  lemma {:induction false} Wider(log: seq<Call>, ip: string, a: nat, b: nat, c: nat)
    requires b <= c
    ensures Between(log, ip, a, b) <= Between(log, ip, a, c)
  {
    if log != [] { Wider(log[..|log| - 1], ip, a, b, c); }
  }

  lemma OneMore(l: Limits, calls: seq<Call>, c: Call)
    ensures var q := PopOld(QueueOf(After(l, calls), c.ip), Cutoff(l.window, c.now));
            |q| < l.max ==> QueueOf(After(l, calls + [c]), c.ip) == q + [c.now] && Accepted(l, calls + [c]) == Accepted(l, calls) + [c]
  {
    assert Init(calls + [c]) == calls && Last(calls + [c]) == c;
  }

  lemma {:induction false} BurstBetween(c: Call, n: nat, b: nat)
    requires c.now <= b
    ensures Between(Copies(c, n), c.ip, c.now, b) == n
  {
    if n > 0 {
      assert Copies(c, n)[..n - 1] == Copies(c, n - 1);
      BurstBetween(c, n - 1, b);
    }
  }
}
