/** The part of JavaScript's `String.prototype.trim` the validators and
    formatters rely on: removal of white space and line terminators from both
    ends of a string. */
module Text {

  /** The ECMAScript WhiteSpace and LineTerminator code points. */
  predicate IsWhitespace(c: char) {
    var n := c as int;
    n == 0x09 || n == 0x0A || n == 0x0B || n == 0x0C || n == 0x0D
    || n == 0x20 || n == 0xA0 || n == 0x1680
    || (0x2000 <= n <= 0x200A)
    || n == 0x2028 || n == 0x2029 || n == 0x202F || n == 0x205F
    || n == 0x3000 || n == 0xFEFF
  }

  /** Every character of `s` is white space (the empty string included). */
  predicate IsBlank(s: string) {
    forall k :: 0 <= k < |s| ==> IsWhitespace(s[k])
  }

  /** `s` neither starts nor ends with white space. */
  predicate IsTrimmed(s: string) {
    |s| == 0 || (!IsWhitespace(s[0]) && !IsWhitespace(s[|s| - 1]))
  }

  /** Number of white-space characters at the start of `s`. */
  function LeadingBlanks(s: string): (n: nat)
    ensures n <= |s|
    ensures forall k :: 0 <= k < n ==> IsWhitespace(s[k])
    ensures n < |s| ==> !IsWhitespace(s[n])
  {
    if |s| > 0 && IsWhitespace(s[0]) then 1 + LeadingBlanks(s[1..]) else 0
  }

  /** Number of white-space characters at the end of `s`. */
  function TrailingBlanks(s: string): (n: nat)
    ensures n <= |s|
    ensures forall k :: |s| - n <= k < |s| ==> IsWhitespace(s[k])
    ensures n < |s| ==> !IsWhitespace(s[|s| - n - 1])
  {
    if |s| > 0 && IsWhitespace(s[|s| - 1]) then 1 + TrailingBlanks(s[..|s| - 1]) else 0
  }

  /** `s.trim()`: the slice of `s` left after a blank prefix and a blank
      suffix are removed; it is empty exactly when `s` is blank. */
  function Trim(s: string): (r: string)
    ensures IsTrimmed(r)
    ensures exists i :: 0 <= i <= |s| - |r| && r == s[i..i + |r|]
                        && IsBlank(s[..i]) && IsBlank(s[i + |r|..])
    ensures |r| == 0 <==> IsBlank(s)
  {
    var i := LeadingBlanks(s);
    var j := |s| - TrailingBlanks(s[i..]);
    TrimSlice(s, i, j);
    s[i..j]
  }

  /** The facts `Trim` needs about the slice it returns, from the
      contracts of the two counting functions. */
  lemma TrimSlice(s: string, i: nat, j: int)
    requires i <= |s| && IsBlank(s[..i]) && (i < |s| ==> !IsWhitespace(s[i]))
    requires i <= j <= |s| && IsBlank(s[j..]) && (i < j ==> !IsWhitespace(s[j - 1]))
    ensures IsTrimmed(s[i..j])
    ensures i == j <==> IsBlank(s)
  {
  }

  /** Restates the last clause of `Trim`'s contract as a lemma callers can
      invoke without unfolding the rest. */
  lemma TrimEmptyIffBlank(s: string)
    ensures |Trim(s)| > 0 <==> !IsBlank(s)
  {
  }

  /** A string that is already trimmed is left alone by `Trim`. */
  lemma TrimFixesTrimmed(s: string)
    requires IsTrimmed(s)
    ensures Trim(s) == s
  {
  }

  /** Trimming twice is trimming once. */
  lemma TrimIdempotent(s: string)
    ensures Trim(Trim(s)) == Trim(s)
  {
  }
}
