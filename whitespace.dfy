// JavaScript white space and `String.prototype.trim`, as the name gate of the
// profile screen and the `\s` class of the email pattern use them.

module Whitespace {

  /**
   * The characters JavaScript counts as white space: the WhiteSpace and
   * LineTerminator productions of ECMAScript (tab, vertical tab, form feed,
   * space, no-break space, byte order mark, the other space separators, and
   * line feed, carriage return, line and paragraph separator). `\s` in a
   * regular expression and `trim` both use exactly this set.
   */
  predicate IsSpace(c: char) {
    || c == '\t' || c == '\n' || c == '\U{000B}' || c == '\U{000C}' || c == '\r'
    || c == ' ' || c == '\U{00A0}' || c == '\U{1680}'
    || ('\U{2000}' <= c <= '\U{200A}')
    || c == '\U{2028}' || c == '\U{2029}' || c == '\U{202F}' || c == '\U{205F}'
    || c == '\U{3000}' || c == '\U{FEFF}'
  }

  /** Every character of `s` is white space (so the empty string is blank). */
  predicate IsBlank(s: string) {
    forall i :: 0 <= i < |s| ==> IsSpace(s[i])
  }

  /** `s` with its leading white space removed. */
  function TrimStart(s: string): (r: string)
    ensures |r| <= |s| && r == s[|s| - |r|..]
    ensures IsBlank(s[..|s| - |r|])
    ensures r == [] || !IsSpace(r[0])
    decreases |s|
  {
    if s != [] && IsSpace(s[0]) then
      var r := TrimStart(s[1..]);
      assert s[..|s| - |r|] == [s[0]] + s[1..][..|s| - 1 - |r|];
      r
    else
      s
  }

  /** `s` with its trailing white space removed. */
  function TrimEnd(s: string): (r: string)
    ensures |r| <= |s| && r == s[..|r|]
    ensures IsBlank(s[|r|..])
    ensures r == [] || !IsSpace(r[|r| - 1])
    decreases |s|
  {
    if s != [] && IsSpace(s[|s| - 1]) then
      var r := TrimEnd(s[..|s| - 1]);
      assert s[|r|..] == s[..|s| - 1][|r|..] + [s[|s| - 1]];
      r
    else
      s
  }

  /**
   * `s.trim()`: `s` without white space at either end. It is empty exactly when
   * `s` is blank, and otherwise starts and ends with a character that is not
   * white space.
   */
  function Trim(s: string): (r: string)
    ensures |r| <= |s|
    ensures r == [] <==> IsBlank(s)
    ensures r == [] || (!IsSpace(r[0]) && !IsSpace(r[|r| - 1]))
  {
    var t := TrimStart(s);
    var r := TrimEnd(t);
    assert s == s[..|s| - |t|] + t;
    BlankConcat(s[..|s| - |t|], t);
    assert r == [] ==> t == t[|r|..];
    assert r != [] ==> r[0] == t[0];
    assert t != [] ==> !IsSpace(t[0]);
    r
  }

  /** A concatenation is blank exactly when both parts are. */
  lemma BlankConcat(a: string, b: string)
    ensures IsBlank(a + b) <==> IsBlank(a) && IsBlank(b)
  {
    if IsBlank(a + b) {
      forall i | 0 <= i < |a| ensures IsSpace(a[i]) { assert a[i] == (a + b)[i]; }
      forall i | 0 <= i < |b| ensures IsSpace(b[i]) { assert b[i] == (a + b)[|a| + i]; }
    }
    if IsBlank(a) && IsBlank(b) {
      forall i | 0 <= i < |a + b| ensures IsSpace((a + b)[i]) {
        if i < |a| { assert (a + b)[i] == a[i]; } else { assert (a + b)[i] == b[i - |a|]; }
      }
    }
  }

  /** Leading white space never survives TrimStart. */
  lemma {:induction false} TrimStartSkipsBlank(w: string, t: string)
    requires IsBlank(w)
    ensures TrimStart(w + t) == TrimStart(t)
    decreases |w|
  {
    if w != [] {
      var u := w + t;
      assert u[0] == w[0];
      assert IsSpace(u[0]);
      assert u[1..] == w[1..] + t;
      assert IsBlank(w[1..]) by {
        forall i | 0 <= i < |w[1..]| ensures IsSpace(w[1..][i]) { assert w[1..][i] == w[i + 1]; }
      }
      TrimStartSkipsBlank(w[1..], t);
    } else {
      assert w + t == t;
    }
  }

  /** Once a non-blank prefix is reached, TrimStart keeps everything after it. */
  lemma {:induction false} TrimStartKeepsTail(s: string, t: string)
    requires !IsBlank(s)
    ensures TrimStart(s + t) == TrimStart(s) + t
    decreases |s|
  {
    assert s != [];
    assert (s + t)[0] == s[0];
    if IsSpace(s[0]) {
      assert (s + t)[1..] == s[1..] + t;
      assert !IsBlank(s[1..]) by {
        var i :| 0 <= i < |s| && !IsSpace(s[i]);
        assert s[1..][i - 1] == s[i];
      }
      TrimStartKeepsTail(s[1..], t);
    }
  }

  /** Trailing white space never survives TrimEnd. */
  lemma {:induction false} TrimEndSkipsBlank(t: string, w: string)
    requires IsBlank(w)
    ensures TrimEnd(t + w) == TrimEnd(t)
    decreases |w|
  {
    if w != [] {
      var u := t + w;
      var w' := w[..|w| - 1];
      assert u[|u| - 1] == w[|w| - 1];
      assert IsSpace(u[|u| - 1]);
      assert u[..|u| - 1] == t + w';
      assert IsBlank(w') by {
        forall i | 0 <= i < |w'| ensures IsSpace(w'[i]) { assert w'[i] == w[i]; }
      }
      TrimEndSkipsBlank(t, w');
    } else {
      assert t + w == t;
    }
  }

  /**
   * Surrounding a string with white space never changes its trim, so it never
   * changes the outcome of a check on `trim()`.
   */
  lemma {:induction false} TrimIgnoresPadding(w1: string, s: string, w2: string)
    requires IsBlank(w1) && IsBlank(w2)
    ensures Trim(w1 + s + w2) == Trim(s)
  {
    assert w1 + s + w2 == w1 + (s + w2);
    TrimStartSkipsBlank(w1, s + w2);
    if IsBlank(s) {
      BlankConcat(s, w2);
    } else {
      TrimStartKeepsTail(s, w2);
      TrimEndSkipsBlank(TrimStart(s), w2);
    }
  }
}
