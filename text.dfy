/** The JavaScript string operations the core relies on: `String.prototype.trim`
    over its explicit whitespace set, and `startsWith`. */
module Text {

  /** The characters `trim` removes: ECMAScript WhiteSpace (tab, vertical tab,
      form feed, space, no-break space, byte-order mark and every Unicode space
      separator) and LineTerminator (LF, CR, line and paragraph separators). */
  predicate IsWhitespace(c: char) {
    || c == '\t' || c == '\n' || c == '\U{000B}' || c == '\U{000C}' || c == '\r'
    || c == ' ' || c == '\U{00A0}' || c == '\U{1680}'
    || ('\U{2000}' <= c <= '\U{200A}')
    || c == '\U{2028}' || c == '\U{2029}' || c == '\U{202F}' || c == '\U{205F}'
    || c == '\U{3000}' || c == '\U{FEFF}'
  }

  /** True when `s` is empty after trimming: every character is whitespace. */
  predicate IsBlank(s: string) {
    forall i :: 0 <= i < |s| ==> IsWhitespace(s[i])
  }

  /** True when `s` has neither leading nor trailing whitespace. */
  predicate IsTrimmed(s: string) {
    s == [] || (!IsWhitespace(s[0]) && !IsWhitespace(s[|s| - 1]))
  }

  /** The index of the first non-whitespace character of `s` at or after
      `i`, or `|s|` when there is none. */
  function SkipForward(s: string, i: nat): (k: nat)
    requires i <= |s|
    ensures i <= k <= |s| && (k == |s| || !IsWhitespace(s[k]))
    ensures forall m :: i <= m < k ==> IsWhitespace(s[m])
    decreases |s| - i
  {
    if i < |s| && IsWhitespace(s[i]) then SkipForward(s, i + 1) else i
  }

  /** The end of the last non-whitespace character of `s` before `j`, or 0
      when there is none. */
  function SkipBackward(s: string, j: nat): (k: nat)
    requires j <= |s|
    ensures k <= j && (k == 0 || !IsWhitespace(s[k - 1]))
    ensures forall m :: k <= m < j ==> IsWhitespace(s[m])
  {
    if j > 0 && IsWhitespace(s[j - 1]) then SkipBackward(s, j - 1) else j
  }

  /** JavaScript `s.trim()`: the slice of `s` between its leading and its
      trailing whitespace. */
  function Trim(s: string): (r: string)
    ensures IsTrimmed(r) && |r| <= |s|
  {
    var t := s[SkipForward(s, 0)..];
    t[..SkipBackward(t, |t|)]
  }

  /** The only characters trim removes are whitespace, so trimming yields the
      empty string exactly when the input is blank. */
  lemma {:induction false} TrimEmptyIff(s: string)
    ensures Trim(s) == [] <==> IsBlank(s)
  {
    var i := SkipForward(s, 0);
    var t := s[i..];
    var j := SkipBackward(t, |t|);
    if Trim(s) == [] {
      // all of t is trailing whitespace, yet t cannot start with whitespace
      assert j == 0;
    }
  }

  /** Trimming a string that is already trimmed changes nothing; in particular
      `Trim` is idempotent. */
  lemma TrimOfTrimmed(s: string)
    requires IsTrimmed(s)
    ensures Trim(s) == s
  {
    assert s[0..] == s;
  }

  /** Trimming removes only a blank prefix and a blank suffix: the result is
      a contiguous slice of the input with whitespace on both sides. */
  lemma TrimIsSlice(s: string)
    ensures exists i, j :: 0 <= i <= j <= |s| && Trim(s) == s[i..j] && IsBlank(s[..i]) && IsBlank(s[j..])
  {
    var i := SkipForward(s, 0);
    var t := s[i..];
    var j := SkipBackward(t, |t|);
    assert Trim(s) == s[i..i + j];
    assert s[i + j..] == t[j..];
  }

  /** Trimming a trimmed, non-empty string padded with blanks on both sides
      gives back the string. */
  lemma TrimPadded(a: string, t: string, b: string)
    requires IsBlank(a) && IsBlank(b) && IsTrimmed(t) && t != []
    ensures Trim(a + t + b) == t
  {
    var s := a + t + b;
    var i := SkipForward(s, 0);
    assert forall m :: 0 <= m < |a| ==> s[m] == a[m];
    assert s[|a|] == t[0];
    assert i == |a|;
    var u := s[i..];
    assert u == t + b;
    var j := SkipBackward(u, |u|);
    assert forall m :: |t| <= m < |u| ==> u[m] == b[m - |t|];
    assert u[|t| - 1] == t[|t| - 1];
    assert j == |t|;
    assert u[..j] == t;
  }

  lemma TrimIdempotent(s: string)
    ensures Trim(Trim(s)) == Trim(s)
  {
    TrimOfTrimmed(Trim(s));
  }

  /** JavaScript `s.startsWith(prefix)`. */
  predicate StartsWith(s: string, prefix: string) {
    |prefix| <= |s| && s[..|prefix|] == prefix
  }
}
