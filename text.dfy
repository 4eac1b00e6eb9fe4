/**
  The string operation the leaderboard applies to player names before
  anything else: JavaScript's `String.prototype.trim`.
*/
module Text {

  /**
    The characters `trim` removes: ECMAScript WhiteSpace (tab, vertical tab,
    form feed, the byte-order mark and every Unicode space separator) and
    LineTerminator (line feed, carriage return, line and paragraph separator).
  */
  predicate IsSpace(c: char)
  {
    || c == '\t' || c == '\n' || c == '\U{000B}' || c == '\U{000C}' || c == '\r'
    || c == ' ' || c == '\U{00A0}' || c == '\U{1680}'
    || ('\U{2000}' <= c <= '\U{200A}')
    || c == '\U{2028}' || c == '\U{2029}' || c == '\U{202F}' || c == '\U{205F}'
    || c == '\U{3000}' || c == '\U{FEFF}'
  }

  predicate AllSpace(s: string)
  {
    forall i :: 0 <= i < |s| ==> IsSpace(s[i])
  }

  /** `s` with its leading white space removed. */
  function TrimStart(s: string): (r: string)
    ensures |r| <= |s| && r == s[|s| - |r|..]
    ensures AllSpace(s[..|s| - |r|])
    ensures r != [] ==> !IsSpace(r[0])
  {
    if s != [] && IsSpace(s[0]) then
      var r := TrimStart(s[1..]);
      assert forall k :: 1 <= k < |s| - |r| ==> s[k] == s[1..][..|s| - 1 - |r|][k - 1];
      r
    else s
  }

  /** `s` with its trailing white space removed. */
  function TrimEnd(s: string): (r: string)
    ensures |r| <= |s| && r == s[..|r|]
    ensures AllSpace(s[|r|..])
    ensures r != [] ==> !IsSpace(r[|r| - 1])
  {
    if s != [] && IsSpace(s[|s| - 1]) then TrimEnd(s[..|s| - 1]) else s
  }

  /**
    `s` without leading and trailing white space: a contiguous piece of `s`
    whose ends are not white space and outside which `s` holds only white space.
  */
  function Trim(s: string): (r: string)
    ensures exists i, j :: 0 <= i <= j <= |s| && r == s[i..j] && AllSpace(s[..i]) && AllSpace(s[j..])
    ensures r != [] ==> !IsSpace(r[0]) && !IsSpace(r[|r| - 1])
  {
    var t := TrimStart(s);
    TrimSlice(s, t);
    TrimTail(s, t);
    TrimEnd(t)
  }

  /** The trimmed string is the piece of `s` that follows its leading white space. */
  lemma TrimSlice(s: string, t: string)
    requires |t| <= |s| && t == s[|s| - |t|..]
    ensures var r, i := TrimEnd(t), |s| - |t|; r == s[i..i + |r|]
  {
    var r, i := TrimEnd(t), |s| - |t|;
    assert forall k :: 0 <= k < |r| ==> r[k] == t[k] == s[i + k];
  }

  /** After the trimmed string `s` holds only white space. */
  lemma TrimTail(s: string, t: string)
    requires |t| <= |s| && t == s[|s| - |t|..]
    ensures var r, i := TrimEnd(t), |s| - |t|; AllSpace(s[i + |r|..])
  {
    var r, i := TrimEnd(t), |s| - |t|;
    assert s[i + |r|..] == t[|r|..];
  }

  /** A string trims to nothing exactly when it is all white space. */
  lemma TrimEmptyIffAllSpace(s: string)
    ensures Trim(s) == [] <==> AllSpace(s)
  {
    var r := Trim(s);
    var i, j :| 0 <= i <= j <= |s| && r == s[i..j] && AllSpace(s[..i]) && AllSpace(s[j..]);
    if r == [] {
      forall k | 0 <= k < |s| ensures IsSpace(s[k]) {
        if k < i { assert s[k] == s[..i][k]; } else { assert s[k] == s[j..][k - j]; }
      }
    }
  }

  /** Trimming twice changes nothing more. */
  lemma TrimIdempotent(s: string)
    ensures Trim(Trim(s)) == Trim(s)
  {
    var r := Trim(s);
    if r != [] {
      assert TrimStart(r) == r;
      assert TrimEnd(r) == r;
    }
  }
}
