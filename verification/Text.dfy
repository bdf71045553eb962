/** The string operations of the original that the parsers use. */
module Text {

  /** White space as `trim` and the class `\s` understand it. */
  predicate IsSpace(c: char) {
    || c == ' ' || '\t' <= c <= '\r' || c == '\U{00a0}' || c == '\U{1680}'
    || '\U{2000}' <= c <= '\U{200a}' || c == '\U{2028}' || c == '\U{2029}'
    || c == '\U{202f}' || c == '\U{205f}' || c == '\U{3000}' || c == '\U{feff}'
  }

  function TrimStart(s: string): string {
    if s != "" && IsSpace(s[0]) then TrimStart(s[1..]) else s
  }

  function TrimEnd(s: string): string {
    if s != "" && IsSpace(s[|s| - 1]) then TrimEnd(s[..|s| - 1]) else s
  }

  function Trim(s: string): string {
    TrimEnd(TrimStart(s))
  }

  /** Nothing to trim at either end. */
  predicate Tidy(s: string) {
    s != "" ==> !IsSpace(s[0]) && !IsSpace(s[|s| - 1])
  }

  /** The code points of white space: what `trim` removes. */
  lemma SpaceExactly(c: char)
    ensures IsSpace(c) <==>
      || 9 <= c as int <= 13 || c as int == 32 || c as int == 160 || c as int == 5760
      || 8192 <= c as int <= 8202 || c as int == 8232 || c as int == 8233 || c as int == 8239
      || c as int == 8287 || c as int == 12288 || c as int == 65279
  {
  }

  predicate AllSpace(s: string) {
    forall c | c in s :: IsSpace(c)
  }

  lemma {:induction false} TrimStartSplit(s: string) returns (before: string)
    ensures s == before + TrimStart(s) && AllSpace(before)
  {
    if s != "" && IsSpace(s[0]) {
      var rest := TrimStartSplit(s[1..]);
      before := [s[0]] + rest;
    } else {
      before := "";
    }
  }

  lemma {:induction false} TrimEndSplit(s: string) returns (after: string)
    ensures s == TrimEnd(s) + after && AllSpace(after)
  {
    if s != "" && IsSpace(s[|s| - 1]) {
      var rest := TrimEndSplit(s[..|s| - 1]);
      after := rest + [s[|s| - 1]];
    } else {
      after := "";
    }
  }

  /** Trimming takes white space off both ends, all of it, and nothing else. */
  lemma TrimExactly(s: string) returns (before: string, after: string)
    ensures s == before + Trim(s) + after && AllSpace(before) && AllSpace(after) && Tidy(Trim(s))
  {
    before := TrimStartSplit(s);
    after := TrimEndSplit(TrimStart(s));
    TrimTidy(s);
    assert s == before + (Trim(s) + after);
  }

  lemma TidyIsTrimmed(s: string)
    requires Tidy(s)
    ensures Trim(s) == s
  {
  }

  lemma {:induction false} TrimStartTidy(s: string)
    ensures TrimStart(s) != "" ==> !IsSpace(TrimStart(s)[0])
    ensures |TrimStart(s)| <= |s|
  {
    if s != "" && IsSpace(s[0]) {
      TrimStartTidy(s[1..]);
    }
  }

  lemma {:induction false} TrimEndTidy(s: string)
    ensures TrimEnd(s) != "" ==> !IsSpace(TrimEnd(s)[|TrimEnd(s)| - 1])
    ensures TrimEnd(s) <= s
  {
    if s != "" && IsSpace(s[|s| - 1]) {
      TrimEndTidy(s[..|s| - 1]);
    }
  }

  /** Trimming leaves nothing to trim. */
  lemma TrimTidy(s: string)
    ensures Tidy(Trim(s)) && |Trim(s)| <= |s|
  {
    TrimStartTidy(s);
    TrimEndTidy(TrimStart(s));
  }

  /** Every character of the result is a character of the argument. */
  lemma {:induction false} TrimChars(s: string)
    ensures forall c | c in Trim(s) :: c in s
  {
    TrimStartChars(s);
    TrimEndTidy(TrimStart(s));
  }

  lemma {:induction false} TrimStartChars(s: string)
    ensures forall c | c in TrimStart(s) :: c in s
  {
    if s != "" && IsSpace(s[0]) {
      TrimStartChars(s[1..]);
    }
  }

  /** First position of `c`, or -1. */
  function IndexOf(s: string, c: char): (k: int)
    ensures -1 <= k < |s|
    ensures k >= 0 ==> s[k] == c && c !in s[..k]
    ensures k == -1 <==> c !in s
  {
    if s == "" then -1
    else if s[0] == c then 0
    else
      var k := IndexOf(s[1..], c);
      assert s == [s[0]] + s[1..];
      if k == -1 then -1
      else
        assert s[..k + 1] == [s[0]] + s[1..][..k];
        k + 1
  }

  lemma {:induction false} IndexIsFirst(s: string, c: char, k: nat)
    requires k < |s| && s[k] == c && c !in s[..k]
    ensures IndexOf(s, c) == k
  {
    if k > 0 {
      assert s[..k][0] == s[0];
      assert s[1..][..k - 1] == s[..k][1..];
      IndexIsFirst(s[1..], c, k - 1);
    }
  }

  /** Last position of `c`, or -1. */
  function LastIndexOf(s: string, c: char): (k: int)
    ensures -1 <= k < |s|
    ensures k >= 0 ==> s[k] == c && c !in s[k + 1..]
    ensures k == -1 <==> c !in s
  {
    if s == "" then -1
    else if s[|s| - 1] == c then |s| - 1
    else
      var k := LastIndexOf(s[..|s| - 1], c);
      assert s == s[..|s| - 1] + [s[|s| - 1]];
      if k == -1 then -1
      else
        assert s[k + 1..] == s[..|s| - 1][k + 1..] + [s[|s| - 1]];
        k
  }

  /** `includes`: `part` occurs somewhere in `s`. */
  predicate Includes(s: string, part: string) {
    part <= s || (s != "" && Includes(s[1..], part))
  }

  /** Every occurrence of a character in `drop` removed. */
  function Without(s: string, drop: set<char>): string {
    if s == "" then ""
    else (if s[0] in drop then "" else [s[0]]) + Without(s[1..], drop)
  }

  lemma {:induction false} WithoutChars(s: string, drop: set<char>)
    ensures |Without(s, drop)| <= |s|
    ensures forall c | c in Without(s, drop) :: c in s && c !in drop
  {
    if s != "" {
      WithoutChars(s[1..], drop);
    }
  }

  lemma {:induction false} WithoutConcat(a: string, b: string, drop: set<char>)
    ensures Without(a + b, drop) == Without(a, drop) + Without(b, drop)
  {
    if a == "" {
      assert a + b == b;
    } else {
      assert (a + b)[0] == a[0] && (a + b)[1..] == a[1..] + b;
      WithoutConcat(a[1..], b, drop);
    }
  }

  lemma {:induction false} WithoutNothing(s: string, drop: set<char>)
    requires forall c | c in s :: c !in drop
    ensures Without(s, drop) == s
  {
    if s != "" {
      WithoutNothing(s[1..], drop);
    }
  }
}
