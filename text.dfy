/** String helpers the client uses to build URLs. */
module Text {
  import opened Wrappers

  predicate OccursAt(s: string, pat: string, i: nat) {
    i + |pat| <= |s| && s[i..i + |pat|] == pat
  }

  /** The position of the first occurrence of `pat` in `s` (`String.prototype.indexOf`). */
  function IndexOf(s: string, pat: string): (r: Option<nat>)
    ensures r.Some? ==> OccursAt(s, pat, r.value) && forall j :: 0 <= j < r.value ==> !OccursAt(s, pat, j)
    ensures r.None? ==> forall j :: 0 <= j <= |s| ==> !OccursAt(s, pat, j)
    decreases |s|
  {
    if |s| < |pat| then None
    else if s[..|pat|] == pat then Some(0)
    else
      OccursShift(s, pat);
      match IndexOf(s[1..], pat)
      case None => None
      case Some(k) => Some(k + 1)
  }

  /** An occurrence in `s[1..]` is an occurrence in `s` one position further on. */
  lemma OccursShift(s: string, pat: string)
    requires |s| > 0
    ensures forall j: nat :: 0 < j ==> (OccursAt(s, pat, j) <==> OccursAt(s[1..], pat, j - 1))
  {
    forall j: nat | 0 < j
      ensures OccursAt(s, pat, j) <==> OccursAt(s[1..], pat, j - 1)
    {
      if j + |pat| <= |s| {
        assert s[1..][j - 1..j - 1 + |pat|] == s[j..j + |pat|];
      }
    }
  }

  /**
   * The replacement text of one match, as ECMAScript's GetSubstitution builds it
   * for a string pattern (which has no capture groups): `$$` is a dollar sign,
   * `$&` the matched text, `` $` `` the text before the match and `$'` the text
   * after it; every other character, including a `$` that starts none of these,
   * is copied as it is.
   */
  function Substitute(rep: string, matched: string, before: string, after: string): string
    decreases |rep|
  {
    if rep == [] then []
    else if rep[0] == '$' && |rep| >= 2 && rep[1] == '$' then "$" + Substitute(rep[2..], matched, before, after)
    else if rep[0] == '$' && |rep| >= 2 && rep[1] == '&' then matched + Substitute(rep[2..], matched, before, after)
    else if rep[0] == '$' && |rep| >= 2 && rep[1] == '`' then before + Substitute(rep[2..], matched, before, after)
    else if rep[0] == '$' && |rep| >= 2 && rep[1] == '\'' then after + Substitute(rep[2..], matched, before, after)
    else [rep[0]] + Substitute(rep[1..], matched, before, after)
  }

  /** A replacement without `$` is inserted literally. */
  lemma {:induction false} SubstituteLiteral(rep: string, matched: string, before: string, after: string)
    requires '$' !in rep
    ensures Substitute(rep, matched, before, after) == rep
    decreases |rep|
  {
    if rep != [] {
      assert rep[0] != '$' && '$' !in rep[1..];
      SubstituteLiteral(rep[1..], matched, before, after);
      assert [rep[0]] + rep[1..] == rep;
    }
  }

  /** The four patterns, each on its own. */
  lemma SubstitutePatterns(matched: string, before: string, after: string)
    ensures Substitute("$$", matched, before, after) == "$"
    ensures Substitute("$&", matched, before, after) == matched
    ensures Substitute("$`", matched, before, after) == before
    ensures Substitute("$'", matched, before, after) == after
    ensures Substitute("$1", matched, before, after) == "$1"
  {
    assert "$$"[2..] == [] && "$&"[2..] == [] && "$`"[2..] == [] && "$'"[2..] == [];
    assert "$1"[1..] == "1" && "1"[1..] == [];
  }

  /** The text `s.replace(pat, rep)` gives when the match is at `i`. */
  function SpliceAt(s: string, pat: string, rep: string, i: nat): string
    requires i + |pat| <= |s|
  {
    s[..i] + Substitute(rep, pat, s[..i], s[i + |pat|..]) + s[i + |pat|..]
  }

  /**
   * `s.replace(pat, rep)` with a string pattern: the search for `pat` starts at
   * position `k` (0 for the call itself), only the first occurrence is replaced,
   * and `s` is returned unchanged when there is none.
   */
  function ReplaceFrom(s: string, pat: string, rep: string, k: nat): string
    decreases |s| - k
  {
    if k + |pat| > |s| then s
    else if s[k..k + |pat|] == pat then SpliceAt(s, pat, rep, k)
    else ReplaceFrom(s, pat, rep, k + 1)
  }

  function ReplaceFirst(s: string, pat: string, rep: string): string {
    ReplaceFrom(s, pat, rep, 0)
  }

  /** Without an occurrence, replacing leaves the string as it was. */
  lemma ReplaceFirstNone(s: string, pat: string, rep: string)
    requires IndexOf(s, pat).None?
    ensures ReplaceFirst(s, pat, rep) == s
  {
    ScanPastEnd(s, pat, rep, 0);
  }

  lemma {:induction false} ScanPastEnd(s: string, pat: string, rep: string, k: nat)
    requires forall j :: k <= j <= |s| ==> !OccursAt(s, pat, j)
    ensures ReplaceFrom(s, pat, rep, k) == s
    decreases |s| - k
  {
    if k + |pat| <= |s| {
      assert !OccursAt(s, pat, k);
      ScanPastEnd(s, pat, rep, k + 1);
    }
  }

  /**
   * Replacing splices the substituted replacement in at the first occurrence and
   * keeps the text on both sides of it.
   */
  lemma ReplaceFirstSplices(s: string, pat: string, rep: string)
    requires IndexOf(s, pat).Some?
    ensures var i := IndexOf(s, pat).value;
      ReplaceFirst(s, pat, rep) == s[..i] + Substitute(rep, pat, s[..i], s[i + |pat|..]) + s[i + |pat|..]
  {
    ScanReaches(s, pat, rep, 0, IndexOf(s, pat).value);
  }

  lemma {:induction false} ScanReaches(s: string, pat: string, rep: string, k: nat, i: nat)
    requires k <= i && OccursAt(s, pat, i)
    requires forall j :: k <= j < i ==> !OccursAt(s, pat, j)
    ensures ReplaceFrom(s, pat, rep, k) == SpliceAt(s, pat, rep, i)
    decreases i - k
  {
    if k < i {
      assert !OccursAt(s, pat, k);
      ScanReaches(s, pat, rep, k + 1, i);
    }
  }

  /** A replacement without `$` is spliced in literally. */
  lemma ReplaceFirstLiteral(s: string, pat: string, rep: string)
    requires IndexOf(s, pat).Some? && '$' !in rep
    ensures var i := IndexOf(s, pat).value;
      ReplaceFirst(s, pat, rep) == s[..i] + rep + s[i + |pat|..]
  {
    var i := IndexOf(s, pat).value;
    ReplaceFirstSplices(s, pat, rep);
    SubstituteLiteral(rep, pat, s[..i], s[i + |pat|..]);
  }
}
