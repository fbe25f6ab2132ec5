// The caregiver screen's `validateEmail`: the pattern ^[^\s@]+@[^\s@]+\.[^\s@]+$
// and a structural description of the strings it accepts.

module Email {
  import opened Whitespace

  /** A run the class `[^\s@]+` matches: non-empty, no white space, no '@'. */
  predicate IsSegment(s: string) {
    |s| > 0 && forall i :: 0 <= i < |s| ==> !IsSpace(s[i]) && s[i] != '@'
  }

  /**
   * `validateEmail(s)`: `s` matches ^[^\s@]+@[^\s@]+\.[^\s@]+$ in full. The
   * pattern is anchored at both ends and its three classes are separated by a
   * literal '@' at some index `at` and a literal '.' at some later index `dot`;
   * a match is exactly such a choice whose three pieces are segments.
   */
  predicate ValidateEmail(s: string) {
    exists at, dot | 0 <= at < dot < |s| ::
      && s[at] == '@' && s[dot] == '.'
      && IsSegment(s[..at]) && IsSegment(s[at + 1..dot]) && IsSegment(s[dot + 1..])
  }

  /** No character of `s` is white space. */
  predicate NoSpace(s: string) {
    forall i :: 0 <= i < |s| ==> !IsSpace(s[i])
  }

  /** The index of the first `c` in `s`, or |s| when there is none. */
  function IndexOf(c: char, s: string): (k: nat)
    ensures k <= |s|
    ensures k < |s| ==> s[k] == c
    ensures forall i :: 0 <= i < k ==> s[i] != c
    ensures k == |s| <==> c !in s
  {
    if s == [] then 0
    else if s[0] == c then 0
    else 1 + IndexOf(c, s[1..])
  }

  /** The domain part contains a '.' that is neither its first nor its last character. */
  predicate HasInnerDot(d: string) {
    exists j :: 0 < j < |d| - 1 && d[j] == '.'
  }

  /**
   * The structural reading of a valid address: no white space, exactly one
   * '@', a non-empty part before it and, after it, a '.' that is neither the
   * first nor the last character.
   */
  predicate WellFormedEmail(s: string) {
    && NoSpace(s)
    && multiset(s)['@'] == 1
    && var at := IndexOf('@', s);
       0 < at < |s| && HasInnerDot(s[at + 1..])
  }

  lemma AtIsNotSpace()
    ensures !IsSpace('@') && !IsSpace('.')
  {
  }

  /** A character that occurs nowhere in `s` has multiplicity zero in it. */
  lemma AbsentCount(c: char, s: string)
    requires forall i :: 0 <= i < |s| ==> s[i] != c
    ensures multiset(s)[c] == 0
  {
    assert c !in s;
  }

  /** Matching the pattern implies the structural reading. */
  lemma ValidIsWellFormed(s: string)
    requires ValidateEmail(s)
    ensures WellFormedEmail(s)
  {
    var at, dot :| 0 <= at < dot < |s| && s[at] == '@' && s[dot] == '.'
      && IsSegment(s[..at]) && IsSegment(s[at + 1..dot]) && IsSegment(s[dot + 1..]);
    MatchFacts(s, at, dot);
    var d := s[at + 1..];
    assert d[dot - at - 1] == '.';
  }

  /** The structural reading implies matching the pattern. */
  lemma WellFormedIsValid(s: string)
    requires WellFormedEmail(s)
    ensures ValidateEmail(s)
  {
    var at := IndexOf('@', s);
    var d := s[at + 1..];
    var j :| 0 < j < |d| - 1 && d[j] == '.';
    var dot := at + 1 + j;
    assert s == s[..at] + [s[at]] + d;
    AbsentCount('@', s[..at]);
    assert multiset(d)['@'] == 0;
    assert '@' !in d;
    assert s[dot] == '.';
    assert IsSegment(s[..at]);
    assert s[at + 1..dot] == d[..j];
    assert IsSegment(s[at + 1..dot]);
    assert s[dot + 1..] == d[j + 1..];
    assert IsSegment(s[dot + 1..]);
  }

  /** `validateEmail` accepts exactly the structurally well-formed addresses. */
  lemma ValidateEmailCharacterisation(s: string)
    ensures ValidateEmail(s) <==> WellFormedEmail(s)
  {
    if ValidateEmail(s) { ValidIsWellFormed(s); }
    if WellFormedEmail(s) { WellFormedIsValid(s); }
  }

  /** An ordinary address is accepted. */
  lemma AcceptsPlainAddress()
    ensures ValidateEmail("ann@example.com")
  {
    var s := "ann@example.com";
    assert s[..3] == "ann" && s[4..11] == "example" && s[12..] == "com";
    assert s[3] == '@' && s[11] == '.';
    assert IsSegment(s[..3]) && IsSegment(s[4..11]) && IsSegment(s[12..]);
  }

  /** In a match, the '@' between the first two classes is the only '@' of the string. */
  lemma AtOnlyAtSplit(s: string, at: int, dot: int, p: int)
    requires 0 <= at < dot < |s| && s[at] == '@' && s[dot] == '.'
    requires IsSegment(s[..at]) && IsSegment(s[at + 1..dot]) && IsSegment(s[dot + 1..])
    requires 0 <= p < |s| && s[p] == '@'
    ensures p == at
  {
    forall q | 0 <= q < at ensures s[q] != '@' {
      assert s[q] == s[..at][q];
    }
    forall q | at < q < dot ensures s[q] != '@' {
      assert s[q] == s[at + 1..dot][q - at - 1];
    }
    forall q | dot < q < |s| ensures s[q] != '@' {
      assert s[q] == s[dot + 1..][q - dot - 1];
    }
  }

  /** A match has no white space, a single '@', and that '@' is the one between the first two classes. */
  lemma MatchFacts(s: string, at: int, dot: int)
    requires 0 <= at < dot < |s| && s[at] == '@' && s[dot] == '.'
    requires IsSegment(s[..at]) && IsSegment(s[at + 1..dot]) && IsSegment(s[dot + 1..])
    ensures NoSpace(s) && multiset(s)['@'] == 1 && IndexOf('@', s) == at
  {
    AtIsNotSpace();
    forall q | 0 <= q < |s| ensures !IsSpace(s[q]) {
      if q < at {
        assert s[q] == s[..at][q];
      } else if at < q < dot {
        assert s[q] == s[at + 1..dot][q - at - 1];
      } else if dot < q {
        assert s[q] == s[dot + 1..][q - dot - 1];
      }
    }
    forall q | 0 <= q < |s| && s[q] == '@' ensures q == at {
      AtOnlyAtSplit(s, at, dot, q);
    }
    assert '@' in s by { assert s[at] == '@'; }
    var before, after := s[..at], s[at + 1..];
    forall i | 0 <= i < |before| ensures before[i] != '@' {
      assert before[i] == s[i];
    }
    forall i | 0 <= i < |after| ensures after[i] != '@' {
      assert after[i] == s[at + 1 + i];
    }
    AbsentCount('@', before);
    AbsentCount('@', after);
    assert s == before + [s[at]] + after;
    assert multiset(s) == multiset(before) + multiset([s[at]]) + multiset(after);
  }

  /** A string with two '@' is refused, wherever they are. */
  lemma TwoAtsRefused(s: string, i: int, j: int)
    requires 0 <= i < j < |s| && s[i] == '@' && s[j] == '@'
    ensures !ValidateEmail(s)
  {
    if ValidateEmail(s) {
      var at, dot :| 0 <= at < dot < |s| && s[at] == '@' && s[dot] == '.'
        && IsSegment(s[..at]) && IsSegment(s[at + 1..dot]) && IsSegment(s[dot + 1..]);
      AtOnlyAtSplit(s, at, dot, i);
      AtOnlyAtSplit(s, at, dot, j);
    }
  }

  /** An address with two '@' is refused. */
  lemma RefusesDoubleAt()
    ensures !ValidateEmail("ann@@example.com")
  {
    var s := "ann@@example.com";
    assert s[3] == '@' && s[4] == '@';
    TwoAtsRefused(s, 3, 4);
  }
}
