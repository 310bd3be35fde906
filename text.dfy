/** Case folding and substring search, the two string operations behind the
    search boxes of the catalog pages: a record field matches the search term
    when `field.toLowerCase().includes(term.toLowerCase())`.
    Case folding is modelled for ASCII letters only. */
module Text {

  /** ASCII lower-casing of one character; every other character is kept. */
  function LowerChar(c: char): char
  {
    if 'A' <= c <= 'Z' then (c as int + 32) as char else c
  }

  predicate IsUpper(c: char)
  {
    'A' <= c <= 'Z'
  }

  /** `toLowerCase`, restricted to ASCII: the same length, each character folded
      on its own, and no upper-case letter left. */
  function Lower(s: string): (r: string)
    ensures |r| == |s|
    ensures forall i :: 0 <= i < |s| ==> r[i] == LowerChar(s[i])
    ensures forall i :: 0 <= i < |r| ==> !IsUpper(r[i])
  {
    if s == [] then [] else [LowerChar(s[0])] + Lower(s[1..])
  }

  /** Folding twice is folding once. */
  lemma LowerIdempotent(s: string)
    ensures Lower(Lower(s)) == Lower(s)
  {
    var once := Lower(s);
    forall i | 0 <= i < |s|
      ensures Lower(once)[i] == once[i]
    {
      assert !IsUpper(once[i]);
    }
  }

  /** Folding distributes over concatenation. */
  lemma LowerAppend(s: string, t: string)
    ensures Lower(s + t) == Lower(s) + Lower(t)
  {
    var a, b, st := Lower(s), Lower(t), Lower(s + t);
    forall i | 0 <= i < |st|
      ensures st[i] == (a + b)[i]
    {
      if i < |s| {
        assert (s + t)[i] == s[i] && (a + b)[i] == a[i];
      } else {
        assert (s + t)[i] == t[i - |s|] && (a + b)[i] == b[i - |s|];
      }
    }
    assert st == a + b;
  }

  /** `needle` sits in `hay` starting at position `i`. */
  predicate OccursAt(hay: string, needle: string, i: int)
  {
    0 <= i && i + |needle| <= |hay| && hay[i..i + |needle|] == needle
  }

  /** `hay.includes(needle)`: some slice of `hay` equals `needle`. */
  predicate Contains(hay: string, needle: string)
  {
    exists i | 0 <= i <= |hay| - |needle| :: OccursAt(hay, needle, i)
  }

  /** The empty string is contained in every string, at position 0. */
  lemma ContainsEmpty(hay: string)
    ensures Contains(hay, "")
  {
    assert OccursAt(hay, "", 0);
  }

  /** A string that contains `needle + more` contains `needle`. */
  lemma ContainsPrefixOfNeedle(hay: string, needle: string, more: string)
    requires Contains(hay, needle + more)
    ensures Contains(hay, needle)
  {
    var longer := needle + more;
    var i :| 0 <= i <= |hay| - |longer| && OccursAt(hay, longer, i);
    assert hay[i..i + |needle|] == longer[..|needle|] == needle;
    assert OccursAt(hay, needle, i);
  }

  /** An occurrence in `a` or in `b` is an occurrence in `a + b`. */
  lemma ContainsInPart(a: string, b: string, needle: string)
    requires Contains(a, needle) || Contains(b, needle)
    ensures Contains(a + b, needle)
  {
    var whole := a + b;
    if Contains(a, needle) {
      var i :| 0 <= i <= |a| - |needle| && OccursAt(a, needle, i);
      assert whole[i..i + |needle|] == a[i..i + |needle|];
      assert OccursAt(whole, needle, i);
    } else {
      var j :| 0 <= j <= |b| - |needle| && OccursAt(b, needle, j);
      assert whole[|a| + j..|a| + j + |needle|] == b[j..j + |needle|];
      assert OccursAt(whole, needle, |a| + j);
    }
  }

  /** An occurrence in `a + b` that does not use `b[0]` lies in `a` or in `b`. */
  lemma ContainsSplits(a: string, b: string, needle: string)
    requires b != [] && b[0] !in needle
    requires Contains(a + b, needle)
    ensures Contains(a, needle) || Contains(b, needle)
  {
    var whole := a + b;
    var i :| 0 <= i <= |whole| - |needle| && OccursAt(whole, needle, i);
    if i + |needle| <= |a| {
      assert whole[i..i + |needle|] == a[i..i + |needle|];
      assert OccursAt(a, needle, i);
    } else if i >= |a| {
      assert whole[i..i + |needle|] == b[i - |a|..i - |a| + |needle|];
      assert OccursAt(b, needle, i - |a|);
    } else {
      OccurrenceCovers(whole, needle, i, |a|);
      assert false;
    }
  }

  /** Every position an occurrence spans holds a character of the needle. */
  lemma OccurrenceCovers(hay: string, needle: string, i: int, p: int)
    requires OccursAt(hay, needle, i) && i <= p < i + |needle|
    ensures hay[p] in needle
  {
    assert hay[i..i + |needle|][p - i] == hay[p];
  }

  // The search test itself: a left-to-right scan over the positions of the
  // text, comparing characters after folding each of them.

  /** Characters `k..` of `term` agree, ignoring case, with `text` from `i + k` on. */
  predicate AgreesFrom(text: string, term: string, i: nat, k: nat)
    requires i + |term| <= |text| && k <= |term|
    decreases |term| - k
  {
    k == |term| || (LowerChar(text[i + k]) == LowerChar(term[k]) && AgreesFrom(text, term, i, k + 1))
  }

  /** Some position `i` or later holds a case-insensitive occurrence of `term`. */
  predicate ScanFrom(text: string, term: string, i: nat)
    requires i <= |text|
    decreases |text| - i
  {
    i + |term| <= |text| && (AgreesFrom(text, term, i, 0) || (i < |text| && ScanFrom(text, term, i + 1)))
  }

  lemma {:induction false} AgreesFromPointwise(text: string, term: string, i: nat, k: nat)
    requires i + |term| <= |text| && k <= |term|
    ensures AgreesFrom(text, term, i, k) <==>
      forall j :: k <= j < |term| ==> LowerChar(text[i + j]) == LowerChar(term[j])
    decreases |term| - k
  {
    if k < |term| {
      AgreesFromPointwise(text, term, i, k + 1);
    }
  }

  lemma AgreesIsOccurrence(text: string, term: string, i: nat)
    requires i + |term| <= |text|
    ensures AgreesFrom(text, term, i, 0) <==> OccursAt(Lower(text), Lower(term), i)
  {
    var lt, lm := Lower(text), Lower(term);
    AgreesFromPointwise(text, term, i, 0);
    if AgreesFrom(text, term, i, 0) {
      assert lt[i..i + |term|] == lm;
    }
    if OccursAt(lt, lm, i) {
      forall j | 0 <= j < |term|
        ensures LowerChar(text[i + j]) == LowerChar(term[j])
      {
        assert lt[i..i + |term|][j] == lm[j];
      }
    }
  }

  /** `needle` occurs in `hay` at position `i` or later. */
  predicate OccursFrom(hay: string, needle: string, i: int)
  {
    exists j | i <= j <= |hay| - |needle| :: OccursAt(hay, needle, j)
  }

  /** An occurrence from `i` on is one at `i` or one from `i + 1` on. */
  lemma OccursFromStep(hay: string, needle: string, i: int)
    requires 0 <= i
    ensures OccursFrom(hay, needle, i) <==> OccursAt(hay, needle, i) || OccursFrom(hay, needle, i + 1)
  {
    if OccursFrom(hay, needle, i) {
      var j :| i <= j <= |hay| - |needle| && OccursAt(hay, needle, j);
      if j != i {
        assert OccursFrom(hay, needle, i + 1);
      }
    }
  }

  lemma {:induction false} ScanFromIsOccurrence(text: string, term: string, i: nat)
    requires i <= |text|
    ensures ScanFrom(text, term, i) <==> OccursFrom(Lower(text), Lower(term), i)
    decreases |text| - i
  {
    var lt, lm := Lower(text), Lower(term);
    OccursFromStep(lt, lm, i);
    if i + |term| <= |text| {
      AgreesIsOccurrence(text, term, i);
      if i < |text| {
        ScanFromIsOccurrence(text, term, i + 1);
      } else {
        assert !OccursFrom(lt, lm, i + 1);
      }
    }
  }

  /** The search test shared by both catalog pages:
      `text.toLowerCase().includes(term.toLowerCase())`. */
  predicate MatchesTerm(text: string, term: string)
  {
    ScanFrom(text, term, 0)
  }

  /** The scan finds exactly the occurrences of the folded term in the folded text. */
  lemma MatchesTermMeaning(text: string, term: string)
    ensures MatchesTerm(text, term) <==> Contains(Lower(text), Lower(term))
  {
    ScanFromIsOccurrence(text, term, 0);
  }

  /** An empty search term matches every field. */
  lemma EmptyTermMatches(text: string)
    ensures MatchesTerm(text, "")
  {
    MatchesTermMeaning(text, "");
    assert Lower("") == "";
    ContainsEmpty(Lower(text));
  }

  /** Only the folded forms of the term and of the field matter. */
  lemma MatchesTermIgnoresCase(text: string, term: string)
    ensures MatchesTerm(text, term) == MatchesTerm(text, Lower(term))
    ensures MatchesTerm(text, term) == MatchesTerm(Lower(text), term)
  {
    MatchesTermMeaning(text, term);
    MatchesTermMeaning(text, Lower(term));
    MatchesTermMeaning(Lower(text), term);
    LowerIdempotent(term);
    LowerIdempotent(text);
  }

  /** Typing more characters can only turn a match into a non-match. */
  lemma MatchesTermExtend(text: string, term: string, more: string)
    requires MatchesTerm(text, term + more)
    ensures MatchesTerm(text, term)
  {
    MatchesTermMeaning(text, term + more);
    MatchesTermMeaning(text, term);
    LowerAppend(term, more);
    ContainsPrefixOfNeedle(Lower(text), Lower(term), Lower(more));
  }

  /** A term cannot match across a separator it does not contain: when `b`
      starts with a character that is not a letter and does not occur in the
      term, `a + b` matches exactly when `a` or `b` does. */
  lemma MatchesTermAcross(a: string, b: string, term: string)
    requires b != [] && !IsUpper(b[0]) && !('a' <= b[0] <= 'z') && b[0] !in term
    ensures MatchesTerm(a + b, term) <==> MatchesTerm(a, term) || MatchesTerm(b, term)
  {
    MatchesTermMeaning(a + b, term);
    MatchesTermMeaning(a, term);
    MatchesTermMeaning(b, term);
    LowerAppend(a, b);
    var la, lb, lt := Lower(a), Lower(b), Lower(term);
    assert lb[0] == b[0];
    forall k | 0 <= k < |term|
      ensures lt[k] != b[0]
    {
      assert term[k] != b[0];
    }
    if Contains(la, lt) || Contains(lb, lt) {
      ContainsInPart(la, lb, lt);
    }
    if Contains(la + lb, lt) {
      ContainsSplits(la, lb, lt);
    }
  }
}
