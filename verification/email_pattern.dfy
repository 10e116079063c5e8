/** The e-mail check both sign-in and sign-up forms run:
    `/\S+@\S+\.\S+/.test(email)`. The pattern is not anchored, so it accepts
    any string with SOME substring of the form non-space text, "@",
    non-space text, ".", non-space text. */
module EmailPattern {
  import opened Text

  /** No character of `s` is white space. */
  predicate NonSpace(s: string)
  {
    forall i :: 0 <= i < |s| ==> !IsSpace(s[i])
  }

  /** The whole of `t` has the shape `\S+@\S+\.\S+`: it is all non-space,
      with an "@" after at least one character and a "." at least two
      characters later that is not the last character. */
  ghost predicate EmailShaped(t: string)
  {
    NonSpace(t) && exists p, q :: 0 < p && p + 1 < q && q + 1 < |t| && t[p] == '@' && t[q] == '.'
  }

  /** What the regular expression accepts: some substring has the shape. */
  ghost predicate MatchesSomewhere(s: string)
  {
    exists i, j :: 0 <= i <= j <= |s| && EmailShaped(s[i..j])
  }

  /** The regular expression matches with its "@" at `p` and its "." at
      `q`: a non-space character before the "@", only non-space characters
      between the two, and a non-space character after the ".". */
  predicate MatchAt(s: string, p: int, q: int)
  {
    && 0 < p && p + 1 < q && q + 1 < |s| && s[p] == '@' && s[q] == '.'
    && !IsSpace(s[p - 1]) && !IsSpace(s[q + 1])
    && forall k :: p < k < q ==> !IsSpace(s[k])
  }

  /** The test by positions: the pattern matches at some "@" and ".". */
  predicate EmailTest(s: string)
  {
    exists p, q :: 0 <= p < q < |s| && MatchAt(s, p, q)
  }

  /** The positional test accepts exactly the strings the regular expression
      accepts. */
  lemma EmailTestIff(s: string)
    ensures EmailTest(s) <==> MatchesSomewhere(s)
  {
    if EmailTest(s) {
      var p, q :| 0 <= p < q < |s| && MatchAt(s, p, q);
      MatchIsShaped(s, p, q);
    }
    if MatchesSomewhere(s) {
      var i, j :| 0 <= i <= j <= |s| && EmailShaped(s[i..j]);
      ShapedIsMatch(s, i, j);
    }
  }

  /** A match at `p` and `q` spans a shaped substring. */
  lemma MatchIsShaped(s: string, p: int, q: int)
    requires MatchAt(s, p, q)
    ensures EmailShaped(s[p - 1..q + 2])
  {
    var t := s[p - 1..q + 2];
    assert t[1] == '@' && t[q - p + 1] == '.';
    forall k | 0 <= k < |t| ensures !IsSpace(t[k]) {
      assert t[k] == s[p - 1 + k];
    }
  }

  /** A shaped substring gives a match at its own "@" and ".". */
  lemma ShapedIsMatch(s: string, i: int, j: int)
    requires 0 <= i <= j <= |s| && EmailShaped(s[i..j])
    ensures EmailTest(s)
  {
    var t := s[i..j];
    var pa, qa :| 0 < pa && pa + 1 < qa && qa + 1 < |t| && t[pa] == '@' && t[qa] == '.';
    var p, q := i + pa, i + qa;
    assert s[p] == t[pa] && s[q] == t[qa];
    assert s[p - 1] == t[pa - 1] && s[q + 1] == t[qa + 1];
    forall k | p < k < q ensures !IsSpace(s[k]) {
      assert s[k] == t[k - i];
    }
    assert MatchAt(s, p, q);
  }

  /** A plain address passes. */
  lemma PlainAddressPasses()
    ensures EmailTest("ana@cidade.br")
  {
    var s := "ana@cidade.br";
    assert s[3] == '@' && s[10] == '.';
    assert forall k :: 3 < k < 10 ==> !IsSpace(s[k]);
    assert MatchAt(s, 3, 10);
  }

  /** Text around an address does not matter: the pattern is not anchored. */
  lemma SurroundedAddressPasses()
    ensures EmailTest("e-mail: a@b.c !")
  {
    var s := "e-mail: a@b.c !";
    assert s[9] == '@' && s[11] == '.';
    assert !IsSpace(s[8]) && !IsSpace(s[10]) && !IsSpace(s[12]);
    assert MatchAt(s, 9, 11);
  }

  /** An address without a "." after the "@" fails. */
  lemma NoDotFails()
    ensures !EmailTest("ana@cidade")
  {
    var s := "ana@cidade";
    assert '.' !in s;
  }
}
