/** String.prototype.replace with a string search value: only the first
    occurrence is replaced, and the replacement string is expanded by
    GetSubstitution, where (with no capture groups) `$$`, `$&`, `` $` `` and
    `$'` are the only special patterns. */
module Replace {
  import opened Wrappers

  predicate OccursAt(s: string, pat: string, i: int) {
    0 <= i && i + |pat| <= |s| && s[i..i + |pat|] == pat
  }

  /** The first occurrence of `pat` in `s` at or after `from`. */
  function IndexOfFrom(s: string, pat: string, from: nat): (r: Option<nat>)
    ensures r.Some? ==> from <= r.value && OccursAt(s, pat, r.value)
    ensures r.Some? ==> forall k :: from <= k < r.value ==> !OccursAt(s, pat, k)
    ensures r.None? ==> forall k :: from <= k ==> !OccursAt(s, pat, k)
    decreases |s| - from
  {
    if from + |pat| > |s| then None
    else if s[from..from + |pat|] == pat then Some(from)
    else IndexOfFrom(s, pat, from + 1)
  }

  /** String.prototype.indexOf: the first occurrence of `pat` in `s`. */
  function IndexOf(s: string, pat: string): (r: Option<nat>)
    ensures r.Some? ==> OccursAt(s, pat, r.value)
                        && forall k :: 0 <= k < r.value ==> !OccursAt(s, pat, k)
    ensures r.None? ==> forall k :: !OccursAt(s, pat, k)
  {
    IndexOfFrom(s, pat, 0)
  }

  /** GetSubstitution for a match of a string search value: `before` and
      `after` are the parts of the subject string around `matched`. */
  function Substitute(rep: string, matched: string, before: string, after: string): (r: string)
    ensures '$' !in rep ==> r == rep
  {
    if rep == [] then []
    else if rep[0] == '$' && |rep| >= 2 && rep[1] == '$' then "$" + Substitute(rep[2..], matched, before, after)
    else if rep[0] == '$' && |rep| >= 2 && rep[1] == '&' then matched + Substitute(rep[2..], matched, before, after)
    else if rep[0] == '$' && |rep| >= 2 && rep[1] == '`' then before + Substitute(rep[2..], matched, before, after)
    else if rep[0] == '$' && |rep| >= 2 && rep[1] == '\'' then after + Substitute(rep[2..], matched, before, after)
    else [rep[0]] + Substitute(rep[1..], matched, before, after)
  }

  /** `s.replace(pat, rep)` for strings `pat` and `rep`. */
  function ReplaceFirst(s: string, pat: string, rep: string): (r: string)
    ensures IndexOf(s, pat).None? ==> r == s
    ensures IndexOf(s, pat).Some? ==>
              var i := IndexOf(s, pat).value;
              var tail := s[i + |pat|..];
              && i + |tail| <= |r| && r[..i] == s[..i] && r[|r| - |tail|..] == tail
  {
    match IndexOf(s, pat)
    case None => s
    case Some(i) => s[..i] + Substitute(rep, pat, s[..i], s[i + |pat|..]) + s[i + |pat|..]
  }

  /** Without an occurrence of `pat`, the string is left as it is. */
  lemma ReplaceNoOccurrence(s: string, pat: string, rep: string)
    requires forall k :: !OccursAt(s, pat, k)
    ensures ReplaceFirst(s, pat, rep) == s
  {
  }

  /** With a `$`-free replacement, exactly the first occurrence of `pat` is
      replaced by `rep`, and everything around it is kept. */
  lemma ReplaceFirstOccurrence(s: string, pat: string, rep: string, i: nat)
    requires '$' !in rep
    requires OccursAt(s, pat, i)
    requires forall k :: 0 <= k < i ==> !OccursAt(s, pat, k)
    ensures ReplaceFirst(s, pat, rep) == s[..i] + rep + s[i + |pat|..]
  {
    assert IndexOf(s, pat) == Some(i);
  }

  /** A replacement holding `$&` brings the matched text back: replacing
      "{LINK}" in "a{LINK}b" by "x$&y" gives "ax{LINK}yb", not "ax$&yb". */
  lemma DollarPatternExpands()
    ensures ReplaceFirst("a{LINK}b", "{LINK}", "x$&y") == "ax{LINK}yb"
  {
    var s, pat := "a{LINK}b", "{LINK}";
    assert s[0..6][0] != pat[0];
    assert OccursAt(s, pat, 1);
    assert IndexOf(s, pat) == Some(1);
    assert Substitute("x$&y", pat, "a", "b") == "x" + pat + "y";
  }
}
