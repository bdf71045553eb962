/** Which region a product name mentions, stated letter by letter. */
module Regions {
  import opened Text
  import opened Sheet

  /** `c` is the small letter `small` or its capital. */
  predicate SameLetter(small: char, c: char) {
    c == small || c as int == small as int - 32
  }

  /** `text` reads `word` in any mix of capital and small letters. */
  predicate Reads(text: string, word: string) {
    |text| == |word| && forall i | 0 <= i < |word| :: SameLetter(word[i], text[i])
  }

  /** `word` occurs in `s`, in any case. */
  ghost predicate Occurs(word: string, s: string) {
    exists before, text, after :: s == before + text + after && Reads(text, word)
  }

  predicate SmallLetters(word: string) {
    forall c | c in word :: 'a' <= c <= 'z'
  }

  lemma LowerReads(c: char, small: char)
    requires 'a' <= small <= 'z'
    ensures Lower(c) == small <==> SameLetter(small, c)
  {
  }

  lemma ReadsLower(text: string, word: string)
    requires SmallLetters(word)
    ensures Reads(text, word) <==> LowerCase(text) == word
  {
    forall i | 0 <= i < |word| && |text| == |word|
      ensures Lower(text[i]) == word[i] <==> SameLetter(word[i], text[i])
    {
      assert word[i] in word;
      LowerReads(text[i], word[i]);
    }
    if LowerCase(text) == word {
      forall i | 0 <= i < |word|
        ensures SameLetter(word[i], text[i])
      {
        assert LowerCase(text)[i] == word[i];
      }
    }
  }

  lemma {:induction false} IncludesSplit(s: string, word: string)
    ensures Includes(s, word) <==> exists before, after :: s == before + word + after
  {
    if word <= s {
      assert s == "" + word + s[|word|..];
    } else if Includes(s, word) {
      IncludesSplit(s[1..], word);
      var before, after :| s[1..] == before + word + after;
      assert s == ([s[0]] + before) + word + after;
    }
    if before, after :| s == before + word + after {
      SplitIncludes(s, before, word, after);
    }
  }

  lemma {:induction false} SplitIncludes(s: string, before: string, word: string, after: string)
    requires s == before + word + after
    ensures Includes(s, word)
  {
    if before == "" {
      assert s == word + after;
    } else {
      assert s[1..] == before[1..] + word + after;
      SplitIncludes(s[1..], before[1..], word, after);
    }
  }

  lemma OccursIncluded(word: string, s: string)
    requires SmallLetters(word) && Occurs(word, s)
    ensures Includes(LowerCase(s), word)
  {
    var before, text, after :| s == before + text + after && Reads(text, word);
    ReadsLower(text, word);
    assert LowerCase(s) == LowerCase(before) + word + LowerCase(after);
    SplitIncludes(LowerCase(s), LowerCase(before), word, LowerCase(after));
  }

  lemma IncludedOccurs(word: string, s: string)
    requires SmallLetters(word) && Includes(LowerCase(s), word)
    ensures Occurs(word, s)
  {
    hide Includes, Reads;
    IncludesSplit(LowerCase(s), word);
    var before, after :| LowerCase(s) == before + word + after;
    var a, b := |before|, |before| + |word|;
    assert s == s[..a] + s[a..b] + s[b..];
    assert LowerCase(s[a..b]) == LowerCase(s)[a..b] == word;
    ReadsLower(s[a..b], word);
  }

  lemma OccursIncludes(word: string, s: string)
    requires SmallLetters(word)
    ensures Occurs(word, s) <==> Includes(LowerCase(s), word)
  {
    hide Occurs, Includes, LowerCase;
    if Occurs(word, s) {
      OccursIncluded(word, s);
    }
    if Includes(LowerCase(s), word) {
      IncludedOccurs(word, s);
    }
  }

  /** The region of a group, by what occurs in it. */
  ghost function RegionNamed(s: string): Optional {
    if Occurs("brasil", s) || Occurs("brazil", s) || Occurs("br", s) then Present("br")
    else if Occurs("argentina", s) || Occurs("ar", s) then Present("ar")
    else if Occurs("europa", s) || Occurs("europe", s) || Occurs("eu", s) then Present("eu")
    else if Occurs("latam", s) || Occurs("latina", s) then Present("latam")
    else if Occurs("global", s) then Present("global")
    else if Occurs("conta", s) then Present("conta")
    else Absent
  }

  /** The parser finds exactly the region that is named. */
  lemma RegionExactly(s: string)
    ensures RegionOf(s) == RegionNamed(s)
  {
    hide Occurs, Includes, LowerCase;
    SmallWords();
    OccursIncludes("brasil", s);
    OccursIncludes("brazil", s);
    OccursIncludes("br", s);
    OccursIncludes("argentina", s);
    OccursIncludes("ar", s);
    OccursIncludes("europa", s);
    OccursIncludes("europe", s);
    OccursIncludes("eu", s);
    OccursIncludes("latam", s);
    OccursIncludes("latina", s);
    OccursIncludes("global", s);
    OccursIncludes("conta", s);
  }

  lemma SmallWords()
    ensures SmallLetters("brasil") && SmallLetters("brazil") && SmallLetters("br")
    ensures SmallLetters("argentina") && SmallLetters("ar")
    ensures SmallLetters("europa") && SmallLetters("europe") && SmallLetters("eu")
    ensures SmallLetters("latam") && SmallLetters("latina") && SmallLetters("global") && SmallLetters("conta")
  {
  }

  /** Whatever surrounds it, a Brazilian spelling in any case gives `br`. */
  lemma Brazilian(before: string, text: string, after: string)
    requires Reads(text, "brasil") || Reads(text, "brazil") || Reads(text, "br")
    ensures RegionOf(before + text + after) == Present("br")
  {
    RegionExactly(before + text + after);
  }
}
