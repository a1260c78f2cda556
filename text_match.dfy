/**
 * The regular-expression tests the quality classifier runs, written out as
 * string predicates.
 *
 * `re.test(s)` is true when the pattern matches starting at SOME position of
 * `s`; `Search` tries every start position in turn. The `i` flag (ignore
 * case) is modelled by lower-casing both sides in ASCII: every pattern here
 * is ASCII, and JavaScript's non-Unicode case folding never maps a
 * non-ASCII character onto an ASCII one, so the two agree.
 */
module TextMatch {

  /** ASCII lower-casing of one character. */
  function LowerChar(c: char): char {
    if 'A' <= c <= 'Z' then (c as int + 32) as char else c
  }

  /** ASCII upper-casing of one character: for the ASCII patterns here, the
      canonical form JavaScript's non-Unicode `i` flag compares characters by. */
  function UpperChar(c: char): char {
    if 'a' <= c <= 'z' then (c as int - 32) as char else c
  }

  predicate IsCapital(c: char) { 'A' <= c <= 'Z' }

  /** Two characters lower-case alike exactly when they upper-case alike, so
      comparing lower-cased strings is comparing ignoring case. */
  lemma LowerAgreesWithUpper(a: char, b: char)
    ensures LowerChar(a) == LowerChar(b) <==> UpperChar(a) == UpperChar(b)
  {
  }

  /** ASCII lower-casing of a string: no capital letter is left, and each
      character is the same as before, ignoring case. */
  function Lower(s: string): (r: string)
    ensures |r| == |s|
    ensures forall i :: 0 <= i < |r| ==> !IsCapital(r[i])
    ensures forall i :: 0 <= i < |s| ==> UpperChar(r[i]) == UpperChar(s[i])
  {
    seq(|s|, i requires 0 <= i < |s| => LowerChar(s[i]))
  }

  /** A pattern written without capitals starts the lower-cased string
      exactly when it starts the string ignoring case. */
  lemma LowerStartsWith(s: string, p: string)
    requires forall i :: 0 <= i < |p| ==> !IsCapital(p[i])
    ensures StartsWith(Lower(s), p) <==>
      |p| <= |s| && forall i :: 0 <= i < |p| ==> UpperChar(s[i]) == UpperChar(p[i])
  {
    var l := Lower(s);
    if |p| <= |s| {
      forall i | 0 <= i < |p|
        ensures l[i] == p[i] <==> UpperChar(s[i]) == UpperChar(p[i])
      {
        assert l[i] == LowerChar(s[i]);
        assert LowerChar(p[i]) == p[i];
        LowerAgreesWithUpper(s[i], p[i]);
      }
      if forall i :: 0 <= i < |p| ==> UpperChar(s[i]) == UpperChar(p[i]) {
        assert l[..|p|] == p;
      }
    }
  }

  predicate StartsWith(s: string, p: string) {
    |p| <= |s| && s[..|p|] == p
  }

  /** Does `matchHere` hold of some suffix of `s` (the empty suffix included)?
      This is how a regular expression without anchors is tried: at each
      start position from left to right. */
  function Search(s: string, matchHere: string -> bool): bool
    decreases |s|
  {
    matchHere(s) || (|s| > 0 && Search(s[1..], matchHere))
  }

  /** `Search` succeeds exactly when some start position matches. */
  lemma {:induction false} SearchFindsStart(s: string, matchHere: string -> bool)
    ensures Search(s, matchHere) <==> exists i :: 0 <= i <= |s| && matchHere(s[i..])
  {
    if matchHere(s) {
      assert s[0..] == s;
    } else if |s| == 0 {
      forall i | 0 <= i <= |s| ensures !matchHere(s[i..]) {
        assert s[i..] == s;
      }
    } else {
      SearchFindsStart(s[1..], matchHere);
      if Search(s, matchHere) {
        var i :| 0 <= i <= |s| - 1 && matchHere(s[1..][i..]);
        assert s[1..][i..] == s[i + 1..];
      } else {
        forall i | 0 <= i <= |s| ensures !matchHere(s[i..]) {
          if i > 0 {
            assert s[i..] == s[1..][i - 1..];
          } else {
            assert s[i..] == s;
          }
        }
      }
    }
  }

  /** A pattern that matches wherever a weaker one does finds a match
      wherever the weaker one finds one. */
  lemma {:induction false} SearchMonotone(s: string, weak: string -> bool, strong: string -> bool)
    requires forall t :: weak(t) ==> strong(t)
    ensures Search(s, weak) ==> Search(s, strong)
  {
    if |s| > 0 && !weak(s) {
      SearchMonotone(s[1..], weak, strong);
    }
  }

  /** JavaScript's `.` (without the `s` flag) matches any character except a
      line terminator. */
  predicate IsLineTerminator(c: char) {
    c == '\n' || c == '\r' || c == '\U{2028}' || c == '\U{2029}'
  }

  /** `.*p` matched at the start of `s`: `p` occurs after a run of characters
      none of which ends the line. */
  function AnyOnLineThen(s: string, p: string): bool
    decreases |s|
  {
    StartsWith(s, p) || (|s| > 0 && !IsLineTerminator(s[0]) && AnyOnLineThen(s[1..], p))
  }

  /** `.*p` matches at the start of `s` exactly when `p` occurs at some
      position `j` with no line terminator before it. */
  lemma {:induction false} AnyOnLineThenFinds(s: string, p: string)
    ensures AnyOnLineThen(s, p) <==>
      exists j :: 0 <= j <= |s| && StartsWith(s[j..], p) && NoLineTerminator(s[..j])
  {
    if StartsWith(s, p) {
      assert s[0..] == s && s[..0] == [];
    } else if |s| == 0 {
      forall j | 0 <= j <= |s| ensures !StartsWith(s[j..], p) {
        assert s[j..] == s;
      }
    } else {
      AnyOnLineThenFinds(s[1..], p);
      if AnyOnLineThen(s, p) {
        var j :| 0 <= j <= |s| - 1 && StartsWith(s[1..][j..], p) && NoLineTerminator(s[1..][..j]);
        assert s[1..][j..] == s[j + 1..];
        assert s[..j + 1] == [s[0]] + s[1..][..j];
      } else {
        forall j | 0 <= j <= |s| && StartsWith(s[j..], p) ensures !NoLineTerminator(s[..j]) {
          if j > 0 {
            assert s[j..] == s[1..][j - 1..];
            assert s[..j] == [s[0]] + s[1..][..j - 1];
            if IsLineTerminator(s[0]) {
              assert s[..j][0] == s[0];
            }
          }
        }
      }
    }
  }

  predicate NoLineTerminator(s: string) {
    forall k :: 0 <= k < |s| ==> !IsLineTerminator(s[k])
  }
}
