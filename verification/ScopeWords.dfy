// Scope strings: words separated by white space, joined again by single blanks.

module ScopeWords {

  /** ASCII white space. */
  predicate IsBlank(c: char) { c == ' ' || '\t' <= c <= '\r' }

  predicate IsWord(w: string) { w != "" && forall i :: 0 <= i < |w| ==> !IsBlank(w[i]) }

  function WordLength(s: string): (n: nat)
    ensures n <= |s| && (forall i :: 0 <= i < n ==> !IsBlank(s[i])) && (n < |s| ==> IsBlank(s[n]))
  {
    if s == "" || IsBlank(s[0]) then 0 else 1 + WordLength(s[1..])
  }

  /** `split_whitespace` */
  function Words(s: string): (ws: seq<string>)
    ensures forall w :: w in ws ==> IsWord(w)
    decreases |s|
  {
    if s == "" then []
    else if IsBlank(s[0]) then Words(s[1..])
    else [s[..WordLength(s)]] + Words(s[WordLength(s)..])
  }

  function Filter(words: seq<string>, allowed: seq<string>): (r: seq<string>)
    ensures forall w :: w in r <==> w in words && w in allowed
  {
    if words == [] then []
    else if words[0] in allowed then [words[0]] + Filter(words[1..], allowed)
    else Filter(words[1..], allowed)
  }

  function Join(words: seq<string>): string {
    if words == [] then "" else if |words| == 1 then words[0] else words[0] + " " + Join(words[1..])
  }

  lemma {:induction false} LengthOfWord(w: string, rest: string)
    requires IsWord(w) && (rest != "" ==> IsBlank(rest[0]))
    ensures WordLength(w + rest) == |w|
  {
    assert (w + rest)[0] == w[0];
    if |w| == 1 {
      assert (w + rest)[1..] == rest;
    } else {
      assert (w + rest)[1..] == w[1..] + rest;
      LengthOfWord(w[1..], rest);
    }
  }

  lemma WordsCons(w: string, rest: string)
    requires IsWord(w)
    ensures Words(w) == [w]
    ensures Words(w + " " + rest) == [w] + Words(rest)
  {
    LengthOfWord(w, "");
    assert w + "" == w && w[|w|..] == "" && w[..|w|] == w;
    var s := w + (" " + rest);
    LengthOfWord(w, " " + rest);
    assert s == w + " " + rest && s[0] == w[0] && s[..|w|] == w && s[|w|..] == " " + rest;
    assert (" " + rest)[1..] == rest;
  }

  /** Joining words and splitting again gives the words back. */
  lemma {:induction false} WordsOfJoin(words: seq<string>)
    requires forall w :: w in words ==> IsWord(w)
    ensures Words(Join(words)) == words
    decreases |words|
  {
    if words != [] {
      WordsCons(words[0], Join(words[1..]));
      WordsOfJoin(words[1..]);
      assert words == [words[0]] + words[1..];
    }
  }

  /** Appending one more word to a scope string adds exactly that word. */
  lemma WordsOfAppend(words: seq<string>, w: string)
    requires (forall v :: v in words ==> IsWord(v)) && IsWord(w)
    ensures Words(if Join(words) == "" then w else Join(words) + " " + w) == words + [w]
  {
    if words == [] {
      WordsCons(w, "");
    } else {
      JoinSnoc(words, w);
      WordsOfJoin(words + [w]);
    }
  }

  lemma {:induction false} JoinSnoc(words: seq<string>, w: string)
    requires words != []
    ensures Join(words + [w]) == Join(words) + " " + w
    decreases |words|
  {
    assert (words + [w])[0] == words[0] && (words + [w])[1..] == words[1..] + [w];
    if |words| == 1 {
      assert words[1..] + [w] == [w];
    } else {
      JoinSnoc(words[1..], w);
      assert words[0] + " " + (Join(words[1..]) + " " + w) == (words[0] + " " + Join(words[1..])) + " " + w;
    }
  }
}
