/** Lobby names: JavaScript's `String.prototype.trim` and the 1..50 length rule that
    `create` and `rename` apply to the trimmed name. */
module Names {

  /** The longest lobby name `create` and `rename` accept, after trimming. */
  const MaxNameLength := 50

  /** ECMAScript WhiteSpace and LineTerminator code points, the set `trim` strips. */
  predicate IsWhitespace(c: char)
  {
    || c == '\t' || c == '\n' || c == '\U{000B}' || c == '\U{000C}' || c == '\r' || c == ' '
    || c == '\U{00A0}' || c == '\U{1680}' || ('\U{2000}' <= c <= '\U{200A}')
    || c == '\U{2028}' || c == '\U{2029}' || c == '\U{202F}' || c == '\U{205F}'
    || c == '\U{3000}' || c == '\U{FEFF}'
  }

  /** How many whitespace characters `s` starts with. */
  function LeadingSpaces(s: string): (n: nat)
    ensures n <= |s|
    ensures forall i :: 0 <= i < n ==> IsWhitespace(s[i])
    ensures n < |s| ==> !IsWhitespace(s[n])
    decreases |s|
  {
    if s == [] || !IsWhitespace(s[0]) then 0 else 1 + LeadingSpaces(s[1..])
  }

  /** Where the trailing whitespace of `s[lo..hi]` begins. */
  function TrailingStart(s: string, lo: nat, hi: nat): (n: nat)
    requires lo <= hi <= |s|
    ensures lo <= n <= hi
    ensures forall i :: n <= i < hi ==> IsWhitespace(s[i])
    ensures lo < n ==> !IsWhitespace(s[n - 1])
    decreases hi
  {
    if hi == lo || !IsWhitespace(s[hi - 1]) then hi else TrailingStart(s, lo, hi - 1)
  }

  /** `name.trim()`: the infix of `s` left once the whitespace on either side is cut away.
      Everything cut is whitespace, and the result neither starts nor ends with whitespace. */
  function Trim(s: string): (r: string)
    ensures |r| <= |s|
    ensures var k := LeadingSpaces(s);
              && k + |r| <= |s| && r == s[k..k + |r|]
              && (forall i :: 0 <= i < k ==> IsWhitespace(s[i]))
              && (forall i :: k + |r| <= i < |s| ==> IsWhitespace(s[i]))
    ensures Trimmed(r)
  {
    var k := LeadingSpaces(s);
    var m := TrailingStart(s, k, |s|);
    assert k < m ==> !IsWhitespace(s[k]);
    s[k..m]
  }

  /** Neither starts nor ends with whitespace. */
  predicate Trimmed(n: string)
  {
    n == [] || (!IsWhitespace(n[0]) && !IsWhitespace(n[|n| - 1]))
  }

  /** The length rule of `create` (`!cleanName || cleanName.length > 50`) and of `rename`. */
  predicate NameOk(clean: string)
  {
    0 < |clean| <= MaxNameLength
  }

  /** A name `create` or `rename` can have stored as a key: trimmed and of legal length. */
  predicate ValidName(n: string)
  {
    Trimmed(n) && NameOk(n)
  }

  /** A trimmed string is its own trim. */
  lemma TrimmedIsFixed(n: string)
    requires Trimmed(n)
    ensures Trim(n) == n
  {
    assert LeadingSpaces(n) == 0;
    if n != [] {
      assert TrailingStart(n, 0, |n|) == |n|;
    }
  }

  /** Trimming twice is trimming once, so a name stored by `create` or `rename` is unchanged
      by trimming it again. */
  lemma TrimIdempotent(s: string)
    ensures Trim(Trim(s)) == Trim(s)
  {
    TrimmedIsFixed(Trim(s));
  }

  /** A name that passes the length rule after trimming is a valid stored key. */
  lemma TrimmedNameIsValid(name: string)
    requires NameOk(Trim(name))
    ensures ValidName(Trim(name))
  {
  }
}
