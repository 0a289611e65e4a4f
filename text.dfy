/**
 * The few string operations of Python's `str` that the connector relies on:
 * `strip()` with no argument, the "blank" test `not s or not s.strip()`,
 * `endswith` and the slice that drops a suffix.
 */
module Text {

  /**
   * The characters Python's `str.strip()` removes when called without an
   * argument (those for which `str.isspace()` holds): the ASCII controls
   * \t \n \v \f \r, the separators \x1c-\x1f, the space, NEL, NBSP and the
   * Unicode space separators.
   */
  predicate IsSpace(c: char) {
    || ('\t' <= c <= '\r')
    || ('\U{1c}' <= c <= '\U{1f}')
    || c == ' '
    || c == '\U{85}'
    || c == '\U{a0}'
    || c == '\U{1680}'
    || ('\U{2000}' <= c <= '\U{200a}')
    || c == '\U{2028}'
    || c == '\U{2029}'
    || c == '\U{202f}'
    || c == '\U{205f}'
    || c == '\U{3000}'
  }

  /** How many whitespace characters `s` starts with. */
  function Leading(s: string): (n: nat)
    ensures n <= |s|
    ensures forall i :: 0 <= i < n ==> IsSpace(s[i])
    ensures n == |s| || !IsSpace(s[n])
    decreases |s|
  {
    if s != [] && IsSpace(s[0]) then 1 + Leading(s[1..]) else 0
  }

  /** How many whitespace characters `s` ends with. */
  function Trailing(s: string): (n: nat)
    ensures n <= |s|
    ensures forall i :: |s| - n <= i < |s| ==> IsSpace(s[i])
    ensures n == |s| || !IsSpace(s[|s| - n - 1])
    decreases |s|
  {
    if s != [] && IsSpace(s[|s| - 1]) then 1 + Trailing(s[..|s| - 1]) else 0
  }

  /**
   * `s.strip()` (`lstrip` then `rstrip`): the piece of `s` between its leading
   * and its trailing whitespace. It neither starts nor ends with whitespace,
   * everything cut off on either side is whitespace, and it is empty exactly
   * when `s` is all whitespace.
   */
  function Strip(s: string): (r: string)
    ensures |r| <= |s|
    ensures r == [] || (!IsSpace(r[0]) && !IsSpace(r[|r| - 1]))
    ensures r == [] <==> forall i :: 0 <= i < |s| ==> IsSpace(s[i])
    ensures Leading(s) + |r| <= |s| && r == s[Leading(s)..Leading(s) + |r|]
    ensures forall i :: 0 <= i < Leading(s) ==> IsSpace(s[i])
    ensures forall i :: Leading(s) + |r| <= i < |s| ==> IsSpace(s[i])
  {
    var l, t := Leading(s), Trailing(s);
    if l == |s| then []
    else
      assert !IsSpace(s[l]);
      assert l < |s| - t;
      s[l..|s| - t]
  }

  /** Python's `not s or not s.strip()`: empty, or whitespace only. */
  predicate IsBlank(s: string) {
    Strip(s) == []
  }

  /** `s.endswith(suffix)`. */
  predicate EndsWith(s: string, suffix: string) {
    |suffix| <= |s| && s[|s| - |suffix|..] == suffix
  }

  /** `s[:-len(suffix)]` for a string that ends with `suffix`: gives back what came before it. */
  function DropSuffix(s: string, suffix: string): (r: string)
    requires EndsWith(s, suffix)
    ensures r + suffix == s
  {
    var r := s[..|s| - |suffix|];
    assert r + suffix == s[..|s| - |suffix|] + s[|s| - |suffix|..];
    r
  }

  /**
   * `Strip`'s contract determines its result: any piece of `s` that is
   * preceded and followed only by whitespace and neither starts nor ends
   * with whitespace is `Strip(s)`.
   */
  lemma StripUnique(s: string, n: nat, r: string)
    requires n + |r| <= |s| && r == s[n..n + |r|]
    requires forall i :: 0 <= i < n ==> IsSpace(s[i])
    requires forall i :: n + |r| <= i < |s| ==> IsSpace(s[i])
    requires r == [] || (!IsSpace(r[0]) && !IsSpace(r[|r| - 1]))
    ensures r == Strip(s)
  {
    var t, l := Strip(s), Leading(s);
    if r == [] {
      assert forall i :: 0 <= i < |s| ==> IsSpace(s[i]);
    } else {
      assert s[n] == r[0] && s[n + |r| - 1] == r[|r| - 1];
      assert t != [];
      assert s[l] == t[0] && s[l + |t| - 1] == t[|t| - 1];
      assert n == l;
      assert n + |r| == l + |t|;
    }
  }

  /** Appending a suffix and dropping it again is the identity. */
  lemma DropSuffixRoundTrip(p: string, suffix: string)
    ensures EndsWith(p + suffix, suffix)
    ensures DropSuffix(p + suffix, suffix) == p
  {
    assert (p + suffix)[|p + suffix| - |suffix|..] == suffix;
    assert (p + suffix)[..|p|] == p;
  }
}
