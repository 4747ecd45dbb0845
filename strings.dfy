/** The part of Go's `strings` package that the solver relies on. */
module GoStrings {

  /** `strings.HasSuffix`: `suffix` is the tail of `s`. */
  predicate HasSuffix<T(==)>(s: seq<T>, suffix: seq<T>)
    ensures HasSuffix(s, suffix) <==> |suffix| <= |s| && s[..|s| - |suffix|] + suffix == s
  {
    |suffix| <= |s| && s[|s| - |suffix|..] == suffix
  }

  /** `strings.TrimSuffix`: drop ONE trailing occurrence of `suffix`, if there is one. */
  function TrimSuffix<T(==)>(s: seq<T>, suffix: seq<T>): (r: seq<T>)
    ensures HasSuffix(s, suffix) ==> r + suffix == s
    ensures !HasSuffix(s, suffix) ==> r == s
    ensures r <= s
  {
    if HasSuffix(s, suffix) then s[..|s| - |suffix|] else s
  }

  /** Appending a suffix and trimming it again gives back the original, even when the
      original itself already ends with that suffix: only one occurrence is removed. */
  lemma TrimSuffixOnce<T>(s: seq<T>, suffix: seq<T>)
    ensures TrimSuffix(s + suffix, suffix) == s
  {
    assert (s + suffix)[|s|..] == suffix;
    assert (s + suffix)[..|s|] == s;
  }
}
