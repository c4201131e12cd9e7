/** The string operations ModIdHelper relies on: java.lang.String.indexOf and
    contains, and StringUtils.replaceOnce from Apache Commons Lang. Strings are
    sequences of characters; positions are indices into them. */
module Text {
  import opened Wrappers

  /** `pat` occurs in `text` starting at index `i`. */
  predicate OccursAt(text: string, pat: string, i: nat) {
    i + |pat| <= |text| && text[i..i + |pat|] == pat
  }

  /** `i` is the first index at which `pat` occurs in `text`. */
  predicate FirstOccurrence(text: string, pat: string, i: nat) {
    OccursAt(text, pat, i) && forall j: nat :: j < i ==> !OccursAt(text, pat, j)
  }

  /** String.indexOf(pat, from) for a start within the text: the least
      index at or after `from` where `pat` occurs, or None when there is
      none. */
  function IndexOfFrom(text: string, pat: string, from: nat): (r: Option<nat>)
    requires from <= |text|
    decreases |text| - from
    ensures r.Some? ==> from <= r.value && OccursAt(text, pat, r.value)
    ensures r.Some? ==> forall j: nat :: from <= j < r.value ==> !OccursAt(text, pat, j)
    ensures r.None? ==> forall j: nat :: from <= j ==> !OccursAt(text, pat, j)
  {
    if from + |pat| > |text| then None
    else if text[from..from + |pat|] == pat then Some(from)
    else IndexOfFrom(text, pat, from + 1)
  }

  /** String.indexOf(pat): the first occurrence of `pat` in `text`, if any. */
  function IndexOf(text: string, pat: string): (r: Option<nat>)
    ensures r.Some? ==> FirstOccurrence(text, pat, r.value)
    ensures r.None? ==> forall i: nat :: !OccursAt(text, pat, i)
  {
    IndexOfFrom(text, pat, 0)
  }

  /** String.contains(pat), which Java defines as indexOf(pat) >= 0. */
  predicate Contains(text: string, pat: string)
  {
    IndexOf(text, pat).Some?
  }

  /** `contains` holds exactly when the pattern occurs somewhere. */
  lemma ContainsIffOccurs(text: string, pat: string)
    ensures Contains(text, pat) <==> exists i: nat :: OccursAt(text, pat, i)
  {
    if Contains(text, pat) {
      assert OccursAt(text, pat, IndexOf(text, pat).value);
    }
  }

  /** StringUtils.replaceOnce(text, search, replacement): replaces the first
      occurrence of `search` by `replacement`; an empty `text` or an empty
      `search` leaves `text` as it is, and so does a `search` that does not
      occur. */
  function ReplaceOnce(text: string, search: string, replacement: string): (r: string)
    ensures |search| == 0 || !Contains(text, search) ==> r == text
    ensures forall i: nat :: |search| > 0 && FirstOccurrence(text, search, i) ==>
      r == text[..i] + replacement + text[i + |search|..]
  {
    if |text| == 0 || |search| == 0 then text
    else
      match IndexOf(text, search)
      case None => text
      case Some(i) => text[..i] + replacement + text[i + |search|..]
  }

  /** Replacing everything before `s` by `prefix` keeps the occurrences that
      start at or after `s`: the one at `j` in `text` is at `k` in `r`. */
  lemma ShiftedOccurrence(text: string, search: string, r: string, prefix: string, s: nat, j: nat, k: nat)
    requires s <= j && OccursAt(text, search, j)
    requires r == prefix + text[s..] && k == |prefix| + j - s
    ensures OccursAt(r, search, k)
  {
    assert r[|prefix|..] == text[s..];
    assert r[k..k + |search|] == r[|prefix|..][j - s..j - s + |search|];
  }
}
