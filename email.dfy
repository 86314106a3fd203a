/**
 * The e-mail pattern of the sign-in and sign-up forms: the regular
 * expression `\S+@\S+\.\S+` without anchors, so `test` succeeds when some
 * block of the address matches it.
 */
module Email {
  import opened Common

  /** Every character of `s[lo..hi]` is matched by `\S`. */
  ghost predicate NonSpace(s: string, lo: int, hi: int)
    requires 0 <= lo <= hi <= |s|
  {
    forall k :: lo <= k < hi ==> !IsSpace(s[k])
  }

  /** `s[a..e]` matches `\S+@\S+\.\S+`, with the `@` at `i` and the `.` at `j`. */
  ghost predicate PatternAt(s: string, a: int, i: int, j: int, e: int)
  {
    0 <= a < i && i + 1 < j && j + 1 < e <= |s|
    && s[i] == '@' && s[j] == '.'
    && NonSpace(s, a, i) && NonSpace(s, i + 1, j) && NonSpace(s, j + 1, e)
  }

  /** `/\S+@\S+\.\S+/.test(s)`. */
  ghost predicate MatchesPattern(s: string)
  {
    exists a, i, j, e :: PatternAt(s, a, i, j, e)
  }

  /** The shortest match around an `@` at `i` and a `.` at `j`: one
      character before the `@` and one after the `.` suffice. */
  predicate ShortestAt(s: string, i: int, j: int)
  {
    1 <= i && i + 1 < j && j + 1 < |s|
    && s[i] == '@' && s[j] == '.' && !IsSpace(s[i - 1]) && !IsSpace(s[j + 1])
    && forall k :: i < k < j ==> !IsSpace(s[k])
  }

  /** The test the forms run on the e-mail address. */
  function ValidEmail(s: string): (r: bool)
    ensures r <==> MatchesPattern(s)
  {
    var r := exists i, j | 0 <= i < j < |s| :: ShortestAt(s, i, j);
    assert r ==> MatchesPattern(s) by {
      if r {
        var i, j :| 0 <= i < j < |s| && ShortestAt(s, i, j);
        assert PatternAt(s, i - 1, i, j, j + 2);
      }
    }
    assert MatchesPattern(s) ==> r by {
      if MatchesPattern(s) {
        var a, i, j, e :| PatternAt(s, a, i, j, e);
        assert !IsSpace(s[i - 1]) && !IsSpace(s[j + 1]);
        assert ShortestAt(s, i, j);
      }
    }
    r
  }

  /** Any three white-space-free blocks joined as `x@y.z` pass. */
  lemma AddressShape(x: string, y: string, z: string)
    requires |x| > 0 && |y| > 0 && |z| > 0
    requires forall k :: 0 <= k < |x| ==> !IsSpace(x[k])
    requires forall k :: 0 <= k < |y| ==> !IsSpace(y[k])
    requires forall k :: 0 <= k < |z| ==> !IsSpace(z[k])
    ensures ValidEmail(x + "@" + y + "." + z)
  {
    var s := x + "@" + y + "." + z;
    var i, j := |x|, |x| + 1 + |y|;
    assert s[i - 1] == x[|x| - 1] && s[j + 1] == z[0];
    forall k | i < k < j
      ensures !IsSpace(s[k])
    {
      assert s[k] == y[k - i - 1];
    }
    assert ShortestAt(s, i, j);
  }

  /** A passing address holds an `@` after its first character and a `.`,
      and has at least five characters. */
  lemma MatchNeedsAtAndDot(s: string)
    requires ValidEmail(s)
    ensures '@' in s[1..] && '.' in s && |s| >= 5
  {
    var i, j :| 0 <= i < j < |s| && ShortestAt(s, i, j);
    assert s[1..][i - 1] == '@';
  }
}
