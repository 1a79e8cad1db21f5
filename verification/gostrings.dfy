/** The two functions of Go's `strings` package that the auth gate relies on. */
module GoStrings {

  /** strings.HasPrefix: `s` begins with `prefix`, compared character by character (case-sensitive). */
  predicate HasPrefix(s: string, prefix: string) {
    |prefix| <= |s| && s[..|prefix|] == prefix
  }

  /** strings.TrimPrefix: removes ONE leading occurrence of `prefix`; returns `s` unchanged without one. */
  function TrimPrefix(s: string, prefix: string): (r: string)
    ensures HasPrefix(s, prefix) ==> prefix + r == s && |r| == |s| - |prefix|
    ensures !HasPrefix(s, prefix) ==> r == s
  {
    if HasPrefix(s, prefix) then s[|prefix|..] else s
  }

  /** A string has a prefix exactly when it is that prefix followed by something. */
  lemma HasPrefixIffConcat(s: string, prefix: string)
    ensures HasPrefix(s, prefix) <==> exists rest :: prefix + rest == s
  {
    if HasPrefix(s, prefix) {
      assert prefix + s[|prefix|..] == s;
    }
    if exists rest :: prefix + rest == s {
      var rest :| prefix + rest == s;
      assert s[..|prefix|] == prefix;
    }
  }

  /** Prepending a prefix and trimming it again gives back the original string. */
  lemma TrimPrefixOfConcat(prefix: string, t: string)
    ensures HasPrefix(prefix + t, prefix)
    ensures TrimPrefix(prefix + t, prefix) == t
  {
    assert (prefix + t)[..|prefix|] == prefix;
    assert (prefix + t)[|prefix|..] == t;
  }
}
