/** The constants and words of the spreadsheet format, and what the parser does with them. */
module SheetRules {
  import opened Text
  import opened Csv
  import opened Price
  import opened Sheet
  import opened Regions

  // ---- headers ----

  /** `s` begins with `word`, in any mix of capital and small letters. */
  ghost predicate Begins(s: string, word: string) {
    |word| <= |s| && Reads(s[..|word|], word)
  }

  lemma UpperReads(c: char, small: char)
    requires 'a' <= small <= 'z'
    ensures Upper(c) == (small as int - 32) as char <==> SameLetter(small, c)
  {
  }

  lemma UpperBegins(s: string, word: string, capitals: string)
    requires SmallLetters(word) && |capitals| == |word|
    requires forall i | 0 <= i < |word| :: word[i] in word && capitals[i] == (word[i] as int - 32) as char
    ensures capitals <= UpperCase(s) <==> Begins(s, word)
  {
    if |word| <= |s| {
      forall i | 0 <= i < |word|
        ensures UpperCase(s)[i] == capitals[i] <==> SameLetter(word[i], s[i])
      {
        UpperReads(s[i], word[i]);
      }
    }
  }

  /** A header names a platform exactly when it begins with one of these words, in any case. */
  lemma PlatformExactly(s: string)
    ensures IsPlatform(s) <==>
      || Begins(s, "xbox") || Begins(s, "steam") || Begins(s, "pc")
      || Begins(s, "nintendo") || Begins(s, "playstation") || Begins(s, "ps")
  {
    hide Begins, UpperCase;
    UpperBegins(s, "xbox", "XBOX");
    UpperBegins(s, "steam", "STEAM");
    UpperBegins(s, "pc", "PC");
    UpperBegins(s, "nintendo", "NINTENDO");
    UpperBegins(s, "playstation", "PLAYSTATION");
    UpperBegins(s, "ps", "PS");
  }

  /** The title of a time stamp column. */
  lemma TitleExactly(s: string)
    ensures IsTitle(s) <==> s == "Carimbo de data/hora"
    ensures HasTitle(s) <==> exists before, after :: s == before + "Carimbo de data/hora" + after
  {
    IncludesSplit(s, TIMESTAMP);
  }

  /** Which header cells name a platform: filled in, without the title, and beginning like one. */
  lemma HeaderExactly(part: string)
    ensures NamesPlatform(part) <==>
      && Trim(part) != "" && !HasTitle(Trim(part))
      && (|| Begins(Trim(part), "xbox") || Begins(Trim(part), "steam") || Begins(Trim(part), "pc")
          || Begins(Trim(part), "nintendo") || Begins(Trim(part), "playstation") || Begins(Trim(part), "ps"))
  {
    hide Begins, HasTitle, Trim, IsPlatform;
    PlatformExactly(Trim(part));
  }

  /** The columns found are exactly those with the title. */
  lemma {:induction false} ColumnsExactly(parts: seq<string>, n: nat)
    ensures n in TimestampColumns(parts) <==> n < |parts| && Trim(parts[n]) == "Carimbo de data/hora"
  {
    if parts != [] {
      ColumnsExactly(parts[..|parts| - 1], n);
    }
  }

  /** Without any title the four default platforms are taken, three columns apart. */
  lemma DefaultsExactly(header: seq<string>, sub: seq<string>, ps: seq<Platform>)
    requires PlatformsOf(header, sub, ps) && forall part | part in sub :: Trim(part) != "Carimbo de data/hora"
    ensures ps == [Platform("XBOX", 0), Platform("STEAM/PC", 3), Platform("NINTENDO E-SHOP", 6),
                   Platform("PLAYSTATION", 9)]
  {
    hide Trim, TimestampColumns;
    NoTitles(sub);
    hide NamesFor;
    assert ps == DefaultPlatforms();
  }

  lemma {:induction false} NoTitles(sub: seq<string>)
    requires forall part | part in sub :: Trim(part) != "Carimbo de data/hora"
    ensures TimestampColumns(sub) == []
  {
    hide Trim;
    if sub != [] {
      NoTitles(sub[..|sub| - 1]);
      assert sub[|sub| - 1] in sub;
    }
  }

  /** Without names in the header the default names go to the title columns in order, four at most. */
  lemma DefaultNames(header: seq<string>, sub: seq<string>, ps: seq<Platform>, k: nat)
    requires PlatformsOf(header, sub, ps) && PlatformNames(header) == [] && TimestampColumns(sub) != []
    ensures |ps| == if |TimestampColumns(sub)| < 4 then |TimestampColumns(sub)| else 4
    ensures k < |ps| ==>
      ps[k] == Platform(["XBOX", "STEAM/PC", "NINTENDO E-SHOP", "PLAYSTATION"][k], TimestampColumns(sub)[k])
  {
  }

  // ---- limits ----

  /** The sizes that are refused: over 5242880 characters, over 10000 lines, under 3 lines. */
  lemma LimitsExactly(content: string, r: ParseResult)
    requires ParsesTo(content, r)
    ensures r == Refused(ContentRequired) <==> content == ""
    ensures r == Refused(TooLarge) <==> |content| > 5242880
    ensures r == Refused(TooManyLines) <==>
      0 < |content| <= 5242880 && |SplitLines(Trim(content))| > 10000
    ensures r == Refused(TooFewLines) <==>
      0 < |content| <= 5242880 && |SplitLines(Trim(content))| < 3
  {
  }

  // ---- products ----

  /** The characters that no stored text contains, and its length. */
  lemma SafeExactly(s: string, c: char)
    ensures c in Sanitize(s) || c in CleanName(Sanitize(s)) ==>
      c != '<' && c != '>' && c != '"' && c != '\'' && c != '&'
    ensures |Sanitize(s)| <= 500 && |CleanName(Sanitize(s))| <= 500
  {
    SanitizeSafe(s);
    StoredNameSafe(s);
  }

  /** A tag goes with everything in it. */
  lemma {:induction false} TagGone(before: string, tag: string, after: string)
    requires '<' !in before && '>' !in tag
    ensures StripTags(before + ("<" + tag + ">" + after)) == before + StripTags(after)
  {
    hide StripTags;
    var tail := "<" + tag + ">" + after;
    if before == "" {
      assert before + tail == tail;
      TagHere(tag, after);
    } else {
      TagGone(before[1..], tag, after);
      NotATag(before, tail);
      assert before == [before[0]] + before[1..];
    }
  }

  lemma TagHere(tag: string, after: string)
    requires '>' !in tag
    ensures StripTags("<" + tag + ">" + after) == StripTags(after)
  {
    hide IndexOf;
    var inner := tag + ">" + after;
    assert ("<" + tag + ">" + after)[1..] == inner && inner[..|tag|] == tag && inner[|tag|] == '>';
    IndexIsFirst(inner, '>', |tag|);
    assert inner[|tag| + 1..] == after;
  }

  lemma NotATag(before: string, tail: string)
    requires before != "" && before[0] != '<'
    ensures StripTags(before + tail) == [before[0]] + StripTags(before[1..] + tail)
  {
    assert (before + tail)[0] == before[0] && (before + tail)[1..] == before[1..] + tail;
  }

  /** Text without tags or dangerous characters is only cut to 500 characters. */
  lemma HarmlessCut(s: string)
    requires forall c | c in s :: c != '<' && c != '>' && c != '"' && c != '\'' && c != '&'
    ensures Sanitize(s) == if |s| <= 500 then s else s[..500]
  {
    NoOpening(s);
    assert forall c | c in s :: c !in DANGEROUS;
    WithoutNothing(s, DANGEROUS);
  }

  lemma {:induction false} NoOpening(s: string)
    requires '<' !in s
    ensures StripTags(s) == s
  {
    if s != "" {
      assert s[0] in s;
      NoOpening(s[1..]);
    }
  }

  /** Three cells give a product exactly when name and price are filled in, and the price is positive. */
  lemma ProductExactly(row: seq<string>, p: Platform)
    ensures var c := p.columnIndex;
      if c + 2 < |row| && Trim(row[c + 1]) != "" && Trim(row[c + 2]) != "" && !HasTitle(Trim(row[c + 1]))
         && (PriceOf(Trim(row[c + 2])) == Infinite(false)
             || (PriceOf(Trim(row[c + 2])).Finite? && PriceOf(Trim(row[c + 2])).value > 0.0))
      then ProductAt(row, p) == [ParsedProduct(
             CleanName(Sanitize(Trim(row[c + 1]))), PriceOf(Trim(row[c + 2])), p.name,
             ExtractRegion(Sanitize(Trim(row[c + 1]))),
             if Trim(row[c]) == "" then Absent else Present(Sanitize(Trim(row[c]))))]
      else ProductAt(row, p) == []
  {
    hide Sanitize, CleanName, ExtractRegion, PriceOf, HasTitle, Trim;
  }
}
