/**
 * Python's `str.strip()` and the character classes the model needs.
 * Strings are sequences of Unicode scalar values.
 */
module Text {

  /** The characters for which Python's `str.isspace()` holds, the ones `strip()` removes. */
  predicate IsSpace(c: char) {
    || c == ' '
    || ('\t' <= c <= '\r')
    || ('\U{1C}' <= c <= '\U{1F}')
    || c == '\U{85}' || c == '\U{A0}' || c == '\U{1680}'
    || ('\U{2000}' <= c <= '\U{200A}')
    || c == '\U{2028}' || c == '\U{2029}' || c == '\U{202F}' || c == '\U{205F}' || c == '\U{3000}'
  }

  /** ASCII decimal digit (the `\d` of the report's group pattern). */
  predicate IsDigit(c: char) {
    '0' <= c <= '9'
  }

  predicate AllSpace(s: string) {
    forall i :: 0 <= i < |s| ==> IsSpace(s[i])
  }

  /** The first position at or after `k` that holds no whitespace, or the end. */
  function InicioTexto(s: string, k: nat): (p: nat)
    requires k <= |s|
    ensures k <= p <= |s|
    ensures forall q :: k <= q < p ==> IsSpace(s[q])
    ensures p < |s| ==> !IsSpace(s[p])
    decreases |s| - k
  {
    if k < |s| && IsSpace(s[k]) then InicioTexto(s, k + 1) else k
  }

  /** The position just past the last non-whitespace character before `k`, or 0. */
  function FimTexto(s: string, k: nat): (p: nat)
    requires k <= |s|
    ensures p <= k
    ensures forall q :: p <= q < k ==> IsSpace(s[q])
    ensures p > 0 ==> !IsSpace(s[p - 1])
  {
    if k > 0 && IsSpace(s[k - 1]) then FimTexto(s, k - 1) else k
  }

  /** `s.lstrip()`: the suffix of `s` left once the leading whitespace is gone. */
  function TrimStart(s: string): (r: string)
    ensures |r| <= |s| && r == s[|s| - |r|..]
    ensures AllSpace(s[..|s| - |r|])
    ensures r != [] ==> !IsSpace(r[0])
  {
    s[InicioTexto(s, 0)..]
  }

  /** `s.rstrip()`: the prefix of `s` left once the trailing whitespace is gone. */
  function TrimEnd(s: string): (r: string)
    ensures |r| <= |s| && r == s[..|r|]
    ensures AllSpace(s[|r|..])
    ensures r != [] ==> !IsSpace(r[|r| - 1])
  {
    s[..FimTexto(s, |s|)]
  }

  /** `s.strip()` */
  function Strip(s: string): (r: string)
    ensures |r| <= |s|
    ensures r != [] ==> !IsSpace(r[0]) && !IsSpace(r[|r| - 1])
  {
    TrimEnd(TrimStart(s))
  }

  /** `not s or not s.strip()`: the guard every catalog form applies to a required field. */
  predicate IsBlank(s: string) {
    Strip(s) == []
  }

  /** A name is blank exactly when every character of it is whitespace (the empty name included). */
  lemma {:induction false} BlankIffAllSpace(s: string)
    ensures IsBlank(s) <==> AllSpace(s)
  {
    var t := TrimStart(s);
    assert s == s[..|s| - |t|] + t;
  }

  /** Stripping twice is stripping once: stored names stay as they were stored. */
  lemma {:induction false} StripIdempotent(s: string)
    ensures Strip(Strip(s)) == Strip(s)
  {
    var r := Strip(s);
    if r != [] {
      assert TrimStart(r) == r;
      assert TrimEnd(r) == r;
    }
  }

  /**
   * Stripping cuts only leading and trailing whitespace: the stripped text is a slice of the
   * original with nothing but whitespace before and after it.
   */
  lemma StripIsInfix(s: string)
    ensures exists i, j {:trigger s[i..j]} :: 0 <= i <= j <= |s| && AllSpace(s[..i]) && Strip(s) == s[i..j] && AllSpace(s[j..])
  {
    var t := TrimStart(s);
    var u := TrimEnd(t);
    var i := |s| - |t|;
    var j := i + |u|;
    PrefixoDoSufixo(s, t, u);
    assert AllSpace(s[..i]) && Strip(s) == s[i..j] && AllSpace(s[j..]);
  }

  /** A prefix `u` of a suffix `t` of `s` is a slice of `s`, and what follows `u` in `t` ends `s`. */
  lemma PrefixoDoSufixo<T>(s: seq<T>, t: seq<T>, u: seq<T>)
    requires |t| <= |s| && t == s[|s| - |t|..] && |u| <= |t| && u == t[..|u|]
    ensures u == s[|s| - |t|..|s| - |t| + |u|] && s[|s| - |t| + |u|..] == t[|u|..]
  {
  }
}
