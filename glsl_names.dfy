/** Uniform names as the driver reports them, and the "[0]" suffix that
    mapUniform chops off array names before it looks them up. */
module GlslNames {
  import opened Wrappers

  /** The suffix a driver appends to the name of an array uniform. */
  const ArraySuffix: string := "[0]"

  /** True when `pat` occurs in `s` starting at position `i`. */
  predicate OccursAt(s: string, pat: string, i: int)
  {
    0 <= i && i + |pat| <= |s| && s[i..i + |pat|] == pat
  }

  /** The first position at or after `from` where `pat` occurs in `s`
      (what strstr finds when `from` is 0). */
  function FindFrom(s: string, pat: string, from: nat): (r: Option<nat>)
    ensures r.Some? ==> from <= r.value && OccursAt(s, pat, r.value)
    ensures forall j :: from <= j && (r.None? || j < r.value) ==> !OccursAt(s, pat, j)
    decreases |s| - from
  {
    if from + |pat| > |s| then None
    else if s[from..from + |pat|] == pat then Some(from)
    else FindFrom(s, pat, from + 1)
  }

  /** The name mapUniform stores and matches: the driver's name cut at the
      first "[0]", or the whole name when it has none. */
  function ChopArraySuffix(name: string): (r: string)
    ensures r <= name
    ensures forall j :: 0 <= j < |r| ==> !OccursAt(name, ArraySuffix, j)
    ensures |r| < |name| ==> OccursAt(name, ArraySuffix, |r|)
    ensures (forall j :: !OccursAt(name, ArraySuffix, j)) ==> r == name
  {
    match FindFrom(name, ArraySuffix, 0)
    case None => name
    case Some(k) => name[..k]
  }

  /** An occurrence inside a prefix is an occurrence in the whole string. */
  lemma OccursInPrefix(s: string, k: nat, pat: string, j: int)
    requires k <= |s| && OccursAt(s[..k], pat, j)
    ensures OccursAt(s, pat, j)
  {
    assert s[..k][j..j + |pat|] == s[j..j + |pat|];
  }

  /** A chopped name holds no "[0]" at all, so chopping it again changes nothing. */
  lemma ChopIdempotent(name: string)
    ensures forall j :: !OccursAt(ChopArraySuffix(name), ArraySuffix, j)
    ensures ChopArraySuffix(ChopArraySuffix(name)) == ChopArraySuffix(name)
  {
    var r := ChopArraySuffix(name);
    forall j | OccursAt(r, ArraySuffix, j) ensures false {
      OccursInPrefix(name, |r|, ArraySuffix, j);
    }
  }
}
