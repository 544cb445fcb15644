// Team slugs: `slugify`, `validate_slug_format` and `unique_team_slug` of
// src/db/mod.rs, and the two-pass form migration 029 uses for the same job.
//
// `lowered` stands for `name.to_lowercase()`: any text at all, except that
// lower-casing leaves no ASCII capital behind.

module Slug {
  import opened Decimal

  predicate IsAlnum(c: char) { 'a' <= c <= 'z' || '0' <= c <= '9' }

  predicate IsAsciiAlphanumeric(c: char) { IsAlnum(c) || 'A' <= c <= 'Z' }

  predicate NoCapitals(s: string) { forall i :: 0 <= i < |s| ==> !('A' <= s[i] <= 'Z') }

  // ── The two-pass form ─────────────────────────────────────────────────────

  /** Length of the run of non-alphanumerics at the front. */
  function RunLength(s: string): (n: nat)
    ensures n <= |s| && (n < |s| ==> IsAlnum(s[n])) && (forall i :: 0 <= i < n ==> !IsAlnum(s[i]))
  {
    if s == "" || IsAlnum(s[0]) then 0 else 1 + RunLength(s[1..])
  }

  /** `regexp_replace(s, '[^a-z0-9]+', '-', 'g')` */
  function ReplaceRuns(s: string): string
    decreases |s|
  {
    if s == "" then ""
    else if IsAlnum(s[0]) then [s[0]] + ReplaceRuns(s[1..])
    else "-" + ReplaceRuns(s[RunLength(s)..])
  }

  function TrimLeft(s: string): string {
    if s != "" && s[0] == '-' then TrimLeft(s[1..]) else s
  }

  function TrimRight(s: string): string {
    if s != "" && s[|s| - 1] == '-' then TrimRight(s[..|s| - 1]) else s
  }

  /** `trim(both '-' from ...)` after the replacement. */
  function Slugified(lowered: string): string { TrimRight(TrimLeft(ReplaceRuns(lowered))) }

  // ── The loop computes the two-pass form ───────────────────────────────────

  lemma {:induction false} ReplaceRunsSnoc(s: string, c: char)
    ensures ReplaceRuns(s + [c]) ==
            if IsAlnum(c) then ReplaceRuns(s) + [c]
            else if s != "" && !IsAlnum(s[|s| - 1]) then ReplaceRuns(s)
            else ReplaceRuns(s) + "-"
    decreases |s|
  {
    var t := s + [c];
    if s == "" {
      assert t[1..] == "";
      if !IsAlnum(c) {
        assert RunLength(t) == 1;
      }
    } else if IsAlnum(s[0]) {
      assert t[1..] == s[1..] + [c];
      ReplaceRunsSnoc(s[1..], c);
    } else {
      var n := RunLength(s);
      RunLengthSnoc(s, c);
      if n < |s| {
        assert t[n..] == s[n..] + [c];
        ReplaceRunsSnoc(s[n..], c);
      } else {
        ReplaceWholeRun(s, c);
      }
    }
  }

  lemma ReplaceOne(c: char)
    ensures ReplaceRuns([c]) == if IsAlnum(c) then [c] else "-"
  {
    assert [c][1..] == "";
  }

  lemma ReplaceFirstRun(s: string)
    requires s != "" && !IsAlnum(s[0])
    ensures ReplaceRuns(s) == "-" + ReplaceRuns(s[RunLength(s)..])
  {
  }

  /** `s` is one run of non-alphanumerics. */
  lemma ReplaceWholeRun(s: string, c: char)
    requires s != "" && RunLength(s) == |s|
    ensures ReplaceRuns(s + [c]) == if IsAlnum(c) then ReplaceRuns(s) + [c] else ReplaceRuns(s)
  {
    hide ReplaceRuns, RunLength;
    var t := s + [c];
    RunLengthSnoc(s, c);
    ReplaceFirstRun(s);
    ReplaceFirstRun(t);
    ReplaceOne(c);
    assert s[|s|..] == "";
    if IsAlnum(c) {
      assert t[|s|..] == [c];
      ReplaceNone();
    } else {
      assert t[|s| + 1..] == "";
    }
  }

  lemma ReplaceNone()
    ensures ReplaceRuns("") == ""
  {
  }

  lemma {:induction false} RunLengthSnoc(s: string, c: char)
    ensures RunLength(s + [c]) == if RunLength(s) < |s| || IsAlnum(c) then RunLength(s) else |s| + 1
  {
    if s != "" && !IsAlnum(s[0]) {
      assert (s + [c])[1..] == s[1..] + [c];
      RunLengthSnoc(s[1..], c);
    } else if s == "" {
      assert (s + [c])[1..] == "";
    }
  }

  lemma {:induction false} TrimLeftSnoc(s: string, c: char)
    ensures TrimLeft(s + [c]) == if TrimLeft(s) == "" && c == '-' then "" else TrimLeft(s) + [c]
  {
    if s != "" && s[0] == '-' {
      assert (s + [c])[1..] == s[1..] + [c];
      TrimLeftSnoc(s[1..], c);
    } else if s == "" {
      assert ([c])[1..] == "" && s + [c] == [c];
    }
  }

  /** What the loop has built after a prefix of the text. */
  function Built(prefix: string): string { TrimLeft(ReplaceRuns(prefix)) }

  lemma BuiltSnoc(s: string, c: char)
    ensures Built(s + [c]) ==
            if IsAlnum(c) then Built(s) + [c]
            else if Built(s) == "" || (s != "" && !IsAlnum(s[|s| - 1])) then Built(s)
            else Built(s) + ['-']
  {
    ReplaceRunsSnoc(s, c);
    TrimLeftSnoc(ReplaceRuns(s), c);
    TrimLeftSnoc(ReplaceRuns(s), '-');
    assert ReplaceRuns(s) + "-" == ReplaceRuns(s) + ['-'];
  }

  method Slugify(lowered: string) returns (slug: string)
    requires NoCapitals(lowered)
    ensures slug == Slugified(lowered)
  {
    slug := "";
    var lastWasHyphen := true;
    for i := 0 to |lowered|
      invariant slug == Built(lowered[..i])
      invariant lastWasHyphen <==> slug == "" || (i > 0 && !IsAlnum(lowered[i - 1]))
    {
      var ch := lowered[i];
      assert lowered[..i + 1] == lowered[..i] + [ch];
      BuiltSnoc(lowered[..i], ch);
      if IsAsciiAlphanumeric(ch) {
        slug := slug + [ch];
        lastWasHyphen := false;
      } else if !lastWasHyphen {
        slug := slug + ['-'];
        lastWasHyphen := true;
      }
    }
    assert lowered[..|lowered|] == lowered;
    while slug != "" && slug[|slug| - 1] == '-'
      invariant TrimRight(slug) == Slugified(lowered)
      decreases |slug|
    {
      slug := slug[..|slug| - 1];
    }
  }

  // ── Valid slugs are its fixed points ──────────────────────────────────────

  predicate SlugChar(c: char) { IsAlnum(c) || c == '-' }

  predicate NoDoubleHyphen(s: string) { forall i :: 0 <= i < |s| - 1 ==> !(s[i] == '-' && s[i + 1] == '-') }

  /** `validate_slug_format` */
  predicate ValidSlug(s: string) {
    && s != ""
    && s[0] != '-'
    && s[|s| - 1] != '-'
    && NoDoubleHyphen(s)
    && (forall i :: 0 <= i < |s| ==> SlugChar(s[i]))
  }

  /** Built from slug characters with no doubled hyphen. */
  predicate Clean(s: string) { NoDoubleHyphen(s) && (forall i :: 0 <= i < |s| ==> SlugChar(s[i])) }

  lemma {:induction false} ReplaceRunsClean(s: string)
    ensures Clean(ReplaceRuns(s))
    ensures ReplaceRuns(s) != "" ==> (ReplaceRuns(s)[0] == '-' <==> !IsAlnum(s[0]))
    ensures s == "" <==> ReplaceRuns(s) == ""
    decreases |s|
  {
    if s != "" {
      if IsAlnum(s[0]) {
        ReplaceRunsClean(s[1..]);
      } else {
        ReplaceRunsClean(s[RunLength(s)..]);
      }
    }
  }

  lemma {:induction false} TrimLeftKeepsClean(s: string)
    requires Clean(s)
    ensures Clean(TrimLeft(s)) && (TrimLeft(s) != "" ==> TrimLeft(s)[0] != '-')
  {
    if s != "" && s[0] == '-' { TrimLeftKeepsClean(s[1..]); }
  }

  lemma {:induction false} TrimRightKeepsClean(s: string)
    requires Clean(s)
    ensures Clean(TrimRight(s)) && (TrimRight(s) != "" ==> TrimRight(s)[|TrimRight(s)| - 1] != '-')
    ensures TrimRight(s) != "" ==> TrimRight(s)[0] == s[0]
  {
    if s != "" && s[|s| - 1] == '-' { TrimRightKeepsClean(s[..|s| - 1]); }
  }

  lemma SlugifiedEmptyOrValid(lowered: string)
    ensures Slugified(lowered) == "" || ValidSlug(Slugified(lowered))
  {
    ReplaceRunsClean(lowered);
    TrimLeftKeepsClean(ReplaceRuns(lowered));
    TrimRightKeepsClean(TrimLeft(ReplaceRuns(lowered)));
  }

  lemma {:induction false} ReplaceRunsFixesClean(s: string)
    requires Clean(s)
    ensures ReplaceRuns(s) == s
    decreases |s|
  {
    if s != "" {
      if !IsAlnum(s[0]) {
        assert RunLength(s) == 1 by {
          if |s| > 1 { assert s[1] != '-'; assert IsAlnum(s[1..][0]); }
        }
      }
      ReplaceRunsFixesClean(s[1..]);
    }
  }

  /** `slugify` fixes exactly the empty string and the slugs the validator accepts. */
  lemma SlugifiedFixesIff(s: string)
    ensures Slugified(s) == s <==> (s == "" || ValidSlug(s))
  {
    SlugifiedEmptyOrValid(s);
    if s == "" || ValidSlug(s) {
      ReplaceRunsFixesClean(s);
    }
  }

  lemma SlugifiedIdempotent(lowered: string)
    ensures Slugified(Slugified(lowered)) == Slugified(lowered)
  {
    SlugifiedEmptyOrValid(lowered);
    SlugifiedFixesIff(Slugified(lowered));
  }

  /** A name has no slug of its own exactly when it holds no letter or digit at all. */
  lemma SlugifiedEmptyIff(lowered: string)
    ensures Slugified(lowered) == "" <==> (forall i :: 0 <= i < |lowered| ==> !IsAlnum(lowered[i]))
  {
    AlnumsKept(lowered);
    TrimLeftEmpty(ReplaceRuns(lowered));
    TrimRightEmpty(TrimLeft(ReplaceRuns(lowered)));
    TrimLeftSuffix(ReplaceRuns(lowered));
  }

  predicate HasAlnum(s: string) { exists i :: 0 <= i < |s| && IsAlnum(s[i]) }

  lemma {:induction false} AlnumsKept(s: string)
    ensures HasAlnum(ReplaceRuns(s)) <==> HasAlnum(s)
    ensures forall i :: 0 <= i < |ReplaceRuns(s)| ==> SlugChar(ReplaceRuns(s)[i])
    decreases |s|
  {
    if s != "" {
      var rest := if IsAlnum(s[0]) then s[1..] else s[RunLength(s)..];
      AlnumsKept(rest);
      assert ReplaceRuns(s) == [if IsAlnum(s[0]) then s[0] else '-'] + ReplaceRuns(rest);
      if HasAlnum(ReplaceRuns(rest)) {
        var j :| 0 <= j < |ReplaceRuns(rest)| && IsAlnum(ReplaceRuns(rest)[j]);
        assert ReplaceRuns(s)[j + 1] == ReplaceRuns(rest)[j];
      }
      if HasAlnum(rest) {
        var j :| 0 <= j < |rest| && IsAlnum(rest[j]);
        assert s[|s| - |rest| + j] == rest[j];
      }
      if HasAlnum(s) && !IsAlnum(s[0]) {
        var i :| 0 <= i < |s| && IsAlnum(s[i]);
        assert rest[i - RunLength(s)] == s[i];
      }
      if IsAlnum(s[0]) {
        assert ReplaceRuns(s)[0] == s[0];
      }
    }
  }

  lemma {:induction false} TrimLeftEmpty(s: string)
    ensures TrimLeft(s) == "" <==> (forall i :: 0 <= i < |s| ==> s[i] == '-')
  {
    if s != "" && s[0] == '-' {
      TrimLeftEmpty(s[1..]);
      assert forall i :: 1 <= i < |s| ==> s[i] == s[1..][i - 1];
    }
  }

  lemma {:induction false} TrimLeftSuffix(s: string)
    ensures TrimLeft(s) != "" ==> TrimLeft(s)[0] != '-'
  {
    if s != "" && s[0] == '-' { TrimLeftSuffix(s[1..]); }
  }

  lemma {:induction false} TrimRightEmpty(s: string)
    ensures TrimRight(s) == "" <==> (forall i :: 0 <= i < |s| ==> s[i] == '-')
  {
    if s != "" && s[|s| - 1] == '-' { TrimRightEmpty(s[..|s| - 1]); }
  }

  // ── unique_team_slug ──────────────────────────────────────────────────────

  /** The k-th slug probed: the base itself, then base-2, base-3, ... */
  function Candidate(base: string, k: nat): string {
    if k == 0 then base else base + "-" + Print(k + 1)
  }

  lemma CandidateInjective(base: string, j: nat, k: nat)
    requires Candidate(base, j) == Candidate(base, k)
    ensures j == k
  {
    if j > 0 && k > 0 {
      assert Candidate(base, j)[|base| + 1..] == Print(j + 1);
      assert Candidate(base, k)[|base| + 1..] == Print(k + 1);
      PrintInjective(j + 1, k + 1);
    }
  }

  lemma CandidateValid(base: string, k: nat)
    requires ValidSlug(base)
    ensures ValidSlug(Candidate(base, k))
  {
    if k > 0 {
      var p := Print(k + 1);
      assert Candidate(base, k) == base + ("-" + p);
      assert forall i :: 0 <= i < |p| ==> IsAlnum(p[i]);
    }
  }

  function BaseSlug(lowered: string): (base: string)
    ensures ValidSlug(base)
  {
    SlugifiedEmptyOrValid(lowered);
    if Slugified(lowered) == "" then "team" else Slugified(lowered)
  }

  /** The first probe from the k-th on that is not taken, and why the search ends. */
  function FirstFree(base: string, taken: set<string>, k: nat): (r: nat)
    ensures k <= r <= k + |taken|
    ensures Candidate(base, r) !in taken
    ensures forall j :: k <= j < r ==> Candidate(base, j) in taken
    decreases |taken|
  {
    if Candidate(base, k) !in taken then k
    else
      var r := FirstFree(base, taken - {Candidate(base, k)}, k + 1);
      assert Candidate(base, r) !in taken by {
        if Candidate(base, r) == Candidate(base, k) { CandidateInjective(base, r, k); }
      }
      r
  }

  function UniqueSlug(lowered: string, taken: set<string>): string {
    Candidate(BaseSlug(lowered), FirstFree(BaseSlug(lowered), taken, 0))
  }

  const I32_MAX: nat := 0x7fff_ffff

  /**
   * At most one more probe than there are taken slugs; the result is free,
   * valid and the least suffix; and the i32 counter stays in range.
   */
  method UniqueTeamSlug(lowered: string, taken: set<string>) returns (candidate: string, probes: nat)
    requires NoCapitals(lowered)
    requires |taken| + 2 <= I32_MAX
    ensures candidate == UniqueSlug(lowered, taken)
    ensures candidate !in taken && ValidSlug(candidate)
    ensures 1 <= probes <= |taken| + 1
    ensures candidate == Candidate(BaseSlug(lowered), probes - 1)
    ensures forall j :: 0 <= j < probes - 1 ==> Candidate(BaseSlug(lowered), j) in taken
  {
    var s := Slugify(lowered);
    var base := if s == "" then "team" else s;
    assert base == BaseSlug(lowered);
    ghost var free := FirstFree(base, taken, 0);
    candidate := base;
    var n: nat := 2;
    probes := 1;
    while candidate in taken
      invariant probes == n - 1 && n <= I32_MAX
      invariant candidate == Candidate(base, n - 2)
      invariant n - 2 <= free
      decreases free - (n - 2)
    {
      assert n - 2 != free;
      candidate := base + "-" + Print(n);
      n := n + 1;
      probes := probes + 1;
    }
    assert n - 2 == free;
    assert Candidate(base, free) == candidate;
    CandidateValid(base, free);
  }
}
