/** Prefix and suffix tests on strings, as `String.startsWith` and `String.endsWith` define them. */
module Strings {

  /** `s.endsWith(suffix)`: the last |suffix| characters of `s` are `suffix`. */
  predicate EndsWith(s: string, suffix: string) {
    |suffix| <= |s| && s[|s| - |suffix|..] == suffix
  }

  /** `s.startsWith(prefix)`. */
  predicate StartsWith(s: string, prefix: string) {
    |prefix| <= |s| && s[..|prefix|] == prefix
  }

  /** A string that starts with `pre` and ends with `suf`, not overlapping, is `pre`, the middle and `suf`. */
  lemma SplitAround(path: string, pre: string, suf: string)
    requires StartsWith(path, pre) && |pre| + |suf| <= |path| && EndsWith(path, suf)
    ensures path == pre + path[|pre|..|path| - |suf|] + suf
  {
    assert path == path[..|pre|] + path[|pre|..|path| - |suf|] + path[|path| - |suf|..];
  }
}
