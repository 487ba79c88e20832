/** The JavaScript string primitives the generator relies on:
    `String.prototype.includes` and `String.prototype.trim`.
    Characters are Unicode scalar values; lone UTF-16 surrogates are not modelled. */
module Strings {

  /** `t` occurs in `s` starting at index `i`. */
  predicate OccursAt(s: string, t: string, i: int) {
    0 <= i && i + |t| <= |s| && s[i..i + |t|] == t
  }

  /** `t` is a contiguous piece of `s`. */
  ghost predicate IsSubstring(s: string, t: string) {
    exists i :: OccursAt(s, t, i)
  }

  lemma OccursShift(s: string, t: string, i: int)
    requires |s| > 0 && 0 <= i
    ensures OccursAt(s[1..], t, i) <==> OccursAt(s, t, i + 1)
  {
    if 0 <= i && i + |t| <= |s| - 1 {
      assert s[1..][i..i + |t|] == s[i + 1..i + 1 + |t|];
    }
  }

  /** `s.includes(t)`: a left-to-right scan for an occurrence of `t`. */
  function Includes(s: string, t: string): (r: bool)
    ensures r <==> IsSubstring(s, t)
    decreases |s|
  {
    if |s| < |t| then
      false
    else if s[..|t|] == t then
      assert OccursAt(s, t, 0);
      true
    else
      var rest := Includes(s[1..], t);
      assert rest ==> IsSubstring(s, t) by {
        if rest {
          var i :| OccursAt(s[1..], t, i);
          OccursShift(s, t, i);
        }
      }
      assert IsSubstring(s, t) ==> rest by {
        if IsSubstring(s, t) {
          var i :| OccursAt(s, t, i);
          assert i != 0;
          OccursShift(s, t, i - 1);
        }
      }
      rest
  }

  /** The characters `String.prototype.trim` removes: the ECMAScript
      WhiteSpace and LineTerminator code points. */
  predicate IsJsWhitespace(c: char) {
    || c == '\t' || c == '\n' || c == '\U{000B}' || c == '\U{000C}' || c == '\r'
    || c == ' ' || c == '\U{00A0}' || c == '\U{1680}'
    || ('\U{2000}' <= c <= '\U{200A}')
    || c == '\U{2028}' || c == '\U{2029}' || c == '\U{202F}' || c == '\U{205F}'
    || c == '\U{3000}' || c == '\U{FEFF}'
  }

  predicate AllWhitespace(s: string) {
    forall i :: 0 <= i < |s| ==> IsJsWhitespace(s[i])
  }

  /** Drops the leading whitespace: the result is the suffix of `s` that
      starts at its first non-whitespace character. */
  function TrimStart(s: string): (r: string)
    ensures |r| <= |s| && r == s[|s| - |r|..]
    ensures AllWhitespace(s[..|s| - |r|])
    ensures r == [] || !IsJsWhitespace(r[0])
  {
    if |s| > 0 && IsJsWhitespace(s[0]) then
      var r := TrimStart(s[1..]);
      assert s[..|s| - |r|] == [s[0]] + s[1..][..|s| - 1 - |r|];
      r
    else
      s
  }

  /** Drops the trailing whitespace: the result is the prefix of `s` that
      ends at its last non-whitespace character. */
  function TrimEnd(s: string): (r: string)
    ensures |r| <= |s| && r == s[..|r|]
    ensures AllWhitespace(s[|r|..])
    ensures r == [] || !IsJsWhitespace(r[|r| - 1])
  {
    if |s| > 0 && IsJsWhitespace(s[|s| - 1]) then
      var r := TrimEnd(s[..|s| - 1]);
      assert s[|r|..] == s[..|s| - 1][|r|..] + [s[|s| - 1]];
      r
    else
      s
  }

  lemma WhitespaceConcat(a: string, b: string)
    requires AllWhitespace(a) && AllWhitespace(b)
    ensures AllWhitespace(a + b)
  {
    forall i | 0 <= i < |a + b| ensures IsJsWhitespace((a + b)[i]) {
      if i < |a| {
        assert (a + b)[i] == a[i];
      } else {
        assert (a + b)[i] == b[i - |a|];
      }
    }
  }

  /** `s.trim()`: the piece of `s` left after removing whitespace at both
      ends; it is empty exactly when `s` is all whitespace. */
  function Trim(s: string): (r: string)
    ensures IsSubstring(s, r)
    ensures r == [] || (!IsJsWhitespace(r[0]) && !IsJsWhitespace(r[|r| - 1]))
    ensures r == [] <==> AllWhitespace(s)
  {
    var front := TrimStart(s);
    var r := TrimEnd(front);
    TrimFacts(s, front, r);
    r
  }

  /** `trim()` removes only leading and trailing whitespace: the result sits
      in `s` with nothing but whitespace before and after it. */
  lemma TrimRemovesOnlyEdges(s: string)
    ensures exists i :: OccursAt(s, Trim(s), i) && AllWhitespace(s[..i]) && AllWhitespace(s[i + |Trim(s)|..])
  {
    var front := TrimStart(s);
    var r := TrimEnd(front);
    var a := |s| - |front|;
    assert r == Trim(s);
    assert OccursAt(s, r, a) by {
      assert front[..|r|] == s[a..][..|r|];
    }
    assert s[a + |r|..] == front[|r|..];
  }

  /** What trimming both ends gives, stated from the two halves' contracts. */
  lemma TrimFacts(s: string, front: string, r: string)
    requires |front| <= |s| && front == s[|s| - |front|..]
    requires AllWhitespace(s[..|s| - |front|])
    requires front == [] || !IsJsWhitespace(front[0])
    requires |r| <= |front| && r == front[..|r|]
    requires AllWhitespace(front[|r|..])
    ensures IsSubstring(s, r)
    ensures r == [] <==> AllWhitespace(s)
  {
    var a := |s| - |front|;
    assert OccursAt(s, r, a) by {
      assert front[..|r|] == s[a..][..|r|];
    }
    if r == [] {
      assert s == s[..a] + front;
      assert front[|r|..] == front;
      WhitespaceConcat(s[..a], front);
    } else {
      assert r[0] == front[0] == s[a];
      assert !IsJsWhitespace(s[a]);
    }
  }
}
