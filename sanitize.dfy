/**
 * The two identifier sanitisers of the views module.
 *
 *  - `SubNonWord(s)` is `re.sub(r'\W+', '_', s)`: every maximal run of
 *    non-word characters becomes a single `_`.
 *  - `ReplaceSpaces(s)` is `s.replace(' ', '_')`: each space becomes `_`,
 *    one for one, and every other character stays.
 *
 * Word characters are taken to be ASCII letters, ASCII digits and `_`.
 */
module Sanitize {

  predicate IsWordChar(c: char) {
    ('a' <= c <= 'z') || ('A' <= c <= 'Z') || ('0' <= c <= '9') || c == '_'
  }

  /** Every character is a word character, i.e. `\W` matches nowhere. */
  predicate AllWord(s: string) {
    forall i :: 0 <= i < |s| ==> IsWordChar(s[i])
  }

  /** Drops the run of non-word characters at the front of `s`. */
  function DropNonWord(s: string): (r: string)
    ensures |r| <= |s|
    ensures r == [] || IsWordChar(r[0])
  {
    if s == [] || IsWordChar(s[0]) then s else DropNonWord(s[1..])
  }

  /** `re.sub(r'\W+', '_', s)` */
  function SubNonWord(s: string): (r: string)
    ensures AllWord(r)
    ensures |r| <= |s|
    ensures |r| == 0 <==> |s| == 0
    decreases |s|
  {
    if s == [] then []
    else if IsWordChar(s[0]) then [s[0]] + SubNonWord(s[1..])
    else "_" + SubNonWord(DropNonWord(s[1..]))
  }

  /** A name made of word characters only is left unchanged. */
  lemma {:induction false} SubNonWordFixesWordNames(s: string)
    requires AllWord(s)
    ensures SubNonWord(s) == s
  {
    if s != [] {
      assert AllWord(s[1..]);
      SubNonWordFixesWordNames(s[1..]);
      assert [s[0]] + s[1..] == s;
    }
  }

  /** Sanitising twice is sanitising once. */
  lemma SubNonWordIdempotent(s: string)
    ensures SubNonWord(SubNonWord(s)) == SubNonWord(s)
  {
    SubNonWordFixesWordNames(SubNonWord(s));
  }

  /** `SubNonWord` leaves `s` unchanged exactly when `s` has no non-word character. */
  lemma SubNonWordFixedPoints(s: string)
    ensures SubNonWord(s) == s <==> AllWord(s)
  {
    if AllWord(s) {
      SubNonWordFixesWordNames(s);
    }
  }

  /** `s.replace(' ', '_')` */
  function ReplaceSpaces(s: string): (r: string)
    ensures |r| == |s|
    ensures forall i :: 0 <= i < |s| ==> r[i] == (if s[i] == ' ' then '_' else s[i])
  {
    if s == [] then []
    else [if s[0] == ' ' then '_' else s[0]] + ReplaceSpaces(s[1..])
  }

  /**
   * The only non-word characters of `s` are spaces, and no two of them are
   * adjacent.
   */
  predicate SingleSpaces(s: string) {
    forall i :: 0 <= i < |s| && !IsWordChar(s[i]) ==>
      s[i] == ' ' && (i + 1 < |s| ==> IsWordChar(s[i + 1]))
  }

  /** Two adjacent non-word characters make `SubNonWord` shrink the name. */
  lemma {:induction false} AdjacentNonWordShrinks(s: string, i: nat)
    requires i + 1 < |s| && !IsWordChar(s[i]) && !IsWordChar(s[i + 1])
    ensures |SubNonWord(s)| < |s|
    decreases |s|
  {
    if IsWordChar(s[0]) {
      AdjacentNonWordShrinks(s[1..], i - 1);
    } else if i == 0 {
      assert |DropNonWord(s[1..])| < |s[1..]|;
    } else {
      var d := DropNonWord(s[1..]);
      if |d| == |s| - 1 {
        assert d == s[1..];
        AdjacentNonWordShrinks(s[1..], i - 1);
      }
    }
  }

  lemma {:induction false} SingleSpacesAgree(s: string)
    requires SingleSpaces(s)
    ensures ReplaceSpaces(s) == SubNonWord(s)
  {
    if s != [] {
      assert SingleSpaces(s[1..]) by {
        forall i | 0 <= i < |s[1..]| && !IsWordChar(s[1..][i])
          ensures s[1..][i] == ' ' && (i + 1 < |s[1..]| ==> IsWordChar(s[1..][i + 1]))
        {
          assert s[1..][i] == s[i + 1];
        }
      }
      SingleSpacesAgree(s[1..]);
      if !IsWordChar(s[0]) {
        assert DropNonWord(s[1..]) == s[1..];
      }
    }
  }

  /**
   * The two sanitisers agree on a name exactly when its only non-word
   * characters are single, non-adjacent spaces.
   */
  lemma SanitisersAgreeIff(s: string)
    ensures ReplaceSpaces(s) == SubNonWord(s) <==> SingleSpaces(s)
  {
    if SingleSpaces(s) {
      SingleSpacesAgree(s);
    } else {
      var i :| 0 <= i < |s| && !IsWordChar(s[i]) &&
        !(s[i] == ' ' && (i + 1 < |s| ==> IsWordChar(s[i + 1])));
      if s[i] != ' ' {
        assert !IsWordChar(ReplaceSpaces(s)[i]);
      } else {
        AdjacentNonWordShrinks(s, i);
      }
    }
  }
}
