/** Vocabulary shared by every module: optional values and prefix/suffix tests on strings. */
module Common {

  /** A value that may be absent (`undefined`/`None`/`nil` in the modelled sources). */
  datatype Option<+T> = None | Some(value: T) {
    /** The value, or `default` when absent. */
    function GetOr(default: T): T {
      if Some? then value else default
    }
  }

  /** `dict[key]` on a string-keyed dictionary: the value, or absent when the key is missing. */
  function ValueAt(dict: map<string, string>, key: string): (v: Option<string>)
    ensures v.Some? <==> key in dict
    ensures v.Some? ==> v.value == dict[key]
  {
    if key in dict then Some(dict[key]) else None
  }

  /** `s` begins with `prefix`. */
  predicate StartsWith(s: string, prefix: string) {
    |prefix| <= |s| && s[..|prefix|] == prefix
  }

  /** `s` ends with `suffix`. */
  predicate EndsWith(s: string, suffix: string) {
    |suffix| <= |s| && s[|s| - |suffix|..] == suffix
  }

  lemma StartsWithConcat(a: string, b: string)
    ensures StartsWith(a + b, a)
  {
    assert (a + b)[..|a|] == a;
  }

  lemma EndsWithConcat(a: string, b: string)
    ensures EndsWith(a + b, b)
  {
    assert (a + b)[|a + b| - |b|..] == b;
  }

  /** Putting the same text in front keeps a prefix a prefix. */
  lemma StartsWithPrepend(e: string, s: string, prefix: string)
    requires StartsWith(s, prefix)
    ensures StartsWith(e + s, e + prefix)
  {
    assert (e + s)[..|e + prefix|] == e + s[..|prefix|];
  }

  /** Putting text in front keeps a suffix a suffix. */
  lemma EndsWithPrepend(e: string, s: string, suffix: string)
    requires EndsWith(s, suffix)
    ensures EndsWith(e + s, suffix)
  {
    assert (e + s)[|e + s| - |suffix|..] == s[|s| - |suffix|..];
  }

  /** A prefix of a prefix is a prefix. */
  lemma StartsWithShorter(s: string, p: string, q: string)
    requires StartsWith(s, p + q)
    ensures StartsWith(s, p)
  {
    assert s[..|p|] == (p + q)[..|p|];
  }
}
