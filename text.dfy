/**
 * The two JavaScript string operations the core relies on, defined exactly:
 * `String.prototype.includes` and `String.prototype.trim`.
 */
module Text {

  /** `sub` occurs in `s` starting at index `i`. */
  ghost predicate OccursAt(s: string, sub: string, i: int)
  {
    0 <= i && i + |sub| <= |s| && s[i..i + |sub|] == sub
  }

  /** The reference meaning of `s.includes(sub)`: some window of `s` equals `sub`. */
  ghost predicate IsSubstring(sub: string, s: string)
  {
    exists i :: OccursAt(s, sub, i)
  }

  /** `s.includes(sub)`, scanning the start positions of `s` from the left. */
  function Includes(s: string, sub: string): bool
    decreases |s|
  {
    if |sub| <= |s| && s[..|sub|] == sub then true
    else if s == [] then false
    else Includes(s[1..], sub)
  }

  /** An occurrence in the tail of `s` is an occurrence in `s`, one position later. */
  lemma OccursInTail(s: string, sub: string, i: int)
    requires |s| > 0 && 0 <= i
    ensures OccursAt(s[1..], sub, i) <==> OccursAt(s, sub, i + 1)
  {
    if 0 <= i && i + |sub| <= |s| - 1 {
      assert s[1..][i..i + |sub|] == s[i + 1..i + 1 + |sub|];
    }
  }

  /** The scan agrees with the reference meaning of `includes`. */
  lemma {:induction false} IncludesIsSubstring(s: string, sub: string)
    ensures Includes(s, sub) <==> IsSubstring(sub, s)
    decreases |s|
  {
    if |sub| <= |s| && s[..|sub|] == sub {
      assert OccursAt(s, sub, 0);
    } else if s == [] {
    } else {
      IncludesIsSubstring(s[1..], sub);
      if IsSubstring(sub, s[1..]) {
        var i :| OccursAt(s[1..], sub, i);
        OccursInTail(s, sub, i);
      }
      if IsSubstring(sub, s) {
        var i :| OccursAt(s, sub, i);
        assert i != 0;
        OccursInTail(s, sub, i - 1);
      }
    }
  }

  /**
   * The characters JavaScript's `trim` removes: the WhiteSpace and
   * LineTerminator code points of the ECMAScript grammar (section 12.2 and
   * 12.3 of ECMA-262), that is TAB, VT, FF, SP, NBSP, ZWNBSP, LF, CR, LS, PS
   * and every other "Zs" space separator.
   */
  predicate IsWhiteSpace(c: char)
  {
    || c == '\t' || c == '\n' || c == '\U{000B}' || c == '\U{000C}' || c == '\r'
    || c == ' ' || c == '\U{00A0}' || c == '\U{1680}'
    || ('\U{2000}' <= c <= '\U{200A}')
    || c == '\U{2028}' || c == '\U{2029}' || c == '\U{202F}' || c == '\U{205F}'
    || c == '\U{3000}' || c == '\U{FEFF}'
  }

  ghost predicate AllWhiteSpace(s: string)
  {
    forall i :: 0 <= i < |s| ==> IsWhiteSpace(s[i])
  }

  /** `s` with its leading white space removed: a suffix of `s` that starts with a non-space. */
  function TrimStart(s: string): (r: string)
    ensures |r| <= |s| && r == s[|s| - |r|..]
    ensures AllWhiteSpace(s[..|s| - |r|])
    ensures r == [] || !IsWhiteSpace(r[0])
    decreases |s|
  {
    if |s| > 0 && IsWhiteSpace(s[0]) then TrimStart(s[1..]) else s
  }

  /** `s` with its trailing white space removed: a prefix of `s` that ends with a non-space. */
  function TrimEnd(s: string): (r: string)
    ensures |r| <= |s| && r == s[..|r|]
    ensures AllWhiteSpace(s[|r|..])
    ensures r == [] || !IsWhiteSpace(r[|r| - 1])
    decreases |s|
  {
    if |s| > 0 && IsWhiteSpace(s[|s| - 1]) then TrimEnd(s[..|s| - 1]) else s
  }

  /** `s.trim()`. */
  function Trim(s: string): string
  {
    TrimEnd(TrimStart(s))
  }

  /** Trimming yields the empty string exactly when the text is all white space. */
  lemma TrimEmptyIff(s: string)
    ensures Trim(s) == [] <==> AllWhiteSpace(s)
  {
    var t := TrimStart(s);
    var k := |s| - |t|;
    if Trim(s) == [] {
      assert t[0..] == t;
      assert |t| == 0;
      assert s[..k] == s;
    }
  }

  /** A trimmed text neither starts nor ends with white space, and is part of the original. */
  lemma TrimShape(s: string)
    ensures |Trim(s)| <= |s|
    ensures Trim(s) == [] || (!IsWhiteSpace(Trim(s)[0]) && !IsWhiteSpace(Trim(s)[|Trim(s)| - 1]))
    ensures exists i :: OccursAt(s, Trim(s), i)
  {
    var t := TrimStart(s);
    var r := TrimEnd(t);
    var k := |s| - |t|;
    if r != [] {
      assert r[0] == t[0];
    }
    assert s[k..k + |r|] == r;
    assert OccursAt(s, r, k);
  }

  /** Trimming twice is trimming once. */
  lemma TrimIdempotent(s: string)
    ensures Trim(Trim(s)) == Trim(s)
  {
    var t := Trim(s);
    TrimShape(s);
    assert TrimStart(t) == t;
    assert TrimEnd(t) == t;
  }
}
