/** The identifier field of the form: Python's `str.strip()` and the
    emptiness test that decides whether a lookup is attempted at all. */
module Text {

  /** Python's `str.isspace` for one character: the ASCII controls TAB..CR and
      FS..US, the space, NEL, NO-BREAK SPACE and the Unicode space separators,
      line and paragraph separators. */
  predicate IsSpace(c: char) {
    || ('\U{0009}' <= c <= '\U{000D}')
    || ('\U{001C}' <= c <= '\U{0020}')
    || c == '\U{0085}'
    || c == '\U{00A0}'
    || c == '\U{1680}'
    || ('\U{2000}' <= c <= '\U{200A}')
    || c == '\U{2028}'
    || c == '\U{2029}'
    || c == '\U{202F}'
    || c == '\U{205F}'
    || c == '\U{3000}'
  }

  /** A string made only of whitespace (the empty string included). */
  predicate IsBlank(s: string) {
    forall i :: 0 <= i < |s| ==> IsSpace(s[i])
  }

  /** Number of whitespace characters at the front of `s`. */
  function LeadingSpaces(s: string): (n: nat)
    ensures n <= |s|
    ensures forall i :: 0 <= i < n ==> IsSpace(s[i])
    ensures n < |s| ==> !IsSpace(s[n])
    decreases |s|
  {
    if s != [] && IsSpace(s[0]) then 1 + LeadingSpaces(s[1..]) else 0
  }

  /** Number of whitespace characters at the back of `s`. */
  function TrailingSpaces(s: string): (n: nat)
    ensures n <= |s|
    ensures forall i :: |s| - n <= i < |s| ==> IsSpace(s[i])
    ensures n < |s| ==> !IsSpace(s[|s| - 1 - n])
    decreases |s|
  {
    if s != [] && IsSpace(s[|s| - 1]) then 1 + TrailingSpaces(s[..|s| - 1]) else 0
  }

  /** `str.strip()`: the infix of `s` that starts at its first non-whitespace
      character and ends at its last one. */
  function Strip(s: string): (t: string)
    ensures LeadingSpaces(s) + |t| <= |s|
    ensures t == s[LeadingSpaces(s)..LeadingSpaces(s) + |t|]
    ensures forall i :: LeadingSpaces(s) + |t| <= i < |s| ==> IsSpace(s[i])
    ensures t != [] ==> !IsSpace(t[0]) && !IsSpace(t[|t| - 1])
    ensures t == [] <==> IsBlank(s)
  {
    var lo := LeadingSpaces(s);
    if lo == |s| then []
    else
      var hi := |s| - TrailingSpaces(s);
      assert lo < hi;
      s[lo..hi]
  }

  /** Stripping twice is stripping once. */
  lemma StripIdempotent(s: string)
    ensures Strip(Strip(s)) == Strip(s)
  {
  }

  /** A string is left unchanged by `strip()` exactly when it is empty or both
      of its ends are non-whitespace. */
  lemma StripFixedPoints(s: string)
    ensures Strip(s) == s <==> s == [] || (!IsSpace(s[0]) && !IsSpace(s[|s| - 1]))
  {
  }
}
