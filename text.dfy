/** The JavaScript string operations the pages rely on: `trim`, `toLowerCase`,
    `startsWith`, `includes` and the first-occurrence `replace`. */
module Text {

  /** ECMAScript WhiteSpace and LineTerminator code points: what `trim` strips
      and what the regular-expression class `\s` matches. */
  predicate IsSpace(c: char) {
    c == '\t' || c == '\n' || c == '\U{000B}' || c == '\U{000C}' || c == '\r' ||
    c == ' ' || c == '\U{00A0}' || c == '\U{1680}' ||
    ('\U{2000}' <= c <= '\U{200A}') ||
    c == '\U{2028}' || c == '\U{2029}' || c == '\U{202F}' || c == '\U{205F}' ||
    c == '\U{3000}' || c == '\U{FEFF}'
  }

  /** A string made of white space only (the empty string included). */
  predicate IsBlank(s: string) {
    forall k :: 0 <= k < |s| ==> IsSpace(s[k])
  }

  /** `toLowerCase` restricted to the ASCII letters. */
  function LowerChar(c: char): char {
    if 'A' <= c <= 'Z' then (c as int + 32) as char else c
  }

  function Lower(s: string): string {
    seq(|s|, i requires 0 <= i < |s| => LowerChar(s[i]))
  }

  predicate IsLowerChar(c: char) {
    !('A' <= c <= 'Z')
  }

  /** Lower-casing yields a lower-case string of the same length and leaves a
      lower-case string as it is. */
  lemma LowerIsLower(s: string)
    ensures |Lower(s)| == |s|
    ensures forall k :: 0 <= k < |s| ==> IsLowerChar(Lower(s)[k])
    ensures (forall k :: 0 <= k < |s| ==> IsLowerChar(s[k])) ==> Lower(s) == s
  {
  }

  lemma LowerAppend(a: string, b: string)
    ensures Lower(a + b) == Lower(a) + Lower(b)
  {
  }

  /** Leading white space removed. */
  function TrimStart(s: string): (r: string)
    ensures |r| <= |s| && r == s[|s| - |r|..]
    ensures r == [] || !IsSpace(r[0])
    ensures forall k :: 0 <= k < |s| - |r| ==> IsSpace(s[k])
  {
    if s != [] && IsSpace(s[0]) then TrimStart(s[1..]) else s
  }

  /** Trailing white space removed. */
  function TrimEnd(s: string): (r: string)
    ensures |r| <= |s| && r == s[..|r|]
    ensures r == [] || !IsSpace(r[|r| - 1])
    ensures forall k :: |r| <= k < |s| ==> IsSpace(s[k])
  {
    if s != [] && IsSpace(s[|s| - 1]) then TrimEnd(s[..|s| - 1]) else s
  }

  /** `s.trim()`. */
  function Trim(s: string): string {
    TrimEnd(TrimStart(s))
  }

  /** The trimmed string is a slice of the original, starts and ends with a
      non-space, and everything cut away is white space. */
  lemma TrimIsCore(s: string)
    ensures var r := Trim(s);
      |r| <= |s| &&
      (r == [] || (!IsSpace(r[0]) && !IsSpace(r[|r| - 1]))) &&
      exists i :: OccursAt(s, r, i) &&
        (forall k :: 0 <= k < i ==> IsSpace(s[k])) &&
        (forall k :: i + |r| <= k < |s| ==> IsSpace(s[k]))
  {
    var t := TrimStart(s);
    var r := TrimEnd(t);
    var i := |s| - |t|;
    assert OccursAt(s, r, i);
    forall k | i + |r| <= k < |s| ensures IsSpace(s[k]) {
      assert s[k] == t[k - i];
    }
  }

  /** A string trims to "" exactly when it is blank: JavaScript's
      `!s.trim()`. */
  lemma TrimEmptyIffBlank(s: string)
    ensures Trim(s) == [] <==> IsBlank(s)
  {
    if Trim(s) != [] {
      TrimIsCore(s);
      var r := Trim(s);
      var i :| OccursAt(s, r, i);
      assert s[i] == r[0];
    }
  }

  /** Trimming a trimmed string changes nothing. */
  lemma TrimIdempotent(s: string)
    ensures Trim(Trim(s)) == Trim(s)
    ensures IsBlank(Trim(s)) <==> IsBlank(s)
  {
    TrimIsCore(s);
    TrimEmptyIffBlank(s);
    TrimEmptyIffBlank(Trim(s));
  }

  predicate StartsWith(s: string, prefix: string) {
    |prefix| <= |s| && s[..|prefix|] == prefix
  }

  /** `p` occurs in `t` at position `i`. */
  predicate OccursAt(t: string, p: string, i: int) {
    0 <= i && i + |p| <= |t| && t[i..i + |p|] == p
  }

  /** `t.includes(p)`: a left-to-right scan for an occurrence of `p`. */
  function Includes(t: string, p: string): bool {
    StartsWith(t, p) || (t != [] && Includes(t[1..], p))
  }

  /** `includes` holds exactly when the pattern occurs somewhere. */
  lemma {:induction false} IncludesIffOccurs(t: string, p: string)
    ensures Includes(t, p) <==> exists i :: OccursAt(t, p, i)
  {
    if StartsWith(t, p) {
      assert OccursAt(t, p, 0);
    } else if t == [] {
    } else {
      IncludesIffOccurs(t[1..], p);
      if Includes(t[1..], p) {
        var i :| OccursAt(t[1..], p, i);
        assert t[i + 1..i + 1 + |p|] == t[1..][i..i + |p|];
        assert OccursAt(t, p, i + 1);
      }
      if exists i :: OccursAt(t, p, i) {
        var i :| OccursAt(t, p, i);
        assert i != 0;
        assert t[1..][i - 1..i - 1 + |p|] == t[i..i + |p|];
        assert OccursAt(t[1..], p, i - 1);
      }
    }
  }

  /** Every string includes the empty string. */
  lemma IncludesEmpty(t: string)
    ensures Includes(t, "")
  {
    assert StartsWith(t, "");
  }

  /** `s.replace(pattern, "")` with a string pattern: the first occurrence of
      `pattern` is removed, and `s` is returned as it is when there is none. */
  function RemoveFirst(s: string, pattern: string): string
  {
    if StartsWith(s, pattern) then s[|pattern|..]
    else if s == [] then s
    else [s[0]] + RemoveFirst(s[1..], pattern)
  }
}
