/** The locale-guessing price parser, and the printers it reads back exactly. */
module Price {
  import opened Text

  // ---- parseFloat ----

  predicate IsDigit(c: char) {
    '0' <= c <= '9'
  }

  predicate AllDigits(s: string) {
    forall c | c in s :: IsDigit(c)
  }

  function DigitValue(c: char): nat {
    if IsDigit(c) then (c as int) - ('0' as int) else 0
  }

  /** The number a digit string stands for. */
  function Val(s: string): nat {
    if s == "" then 0 else Val(s[..|s| - 1]) * 10 + DigitValue(s[|s| - 1])
  }

  /** Length of the leading run of digits. */
  function DigitRun(s: string): (n: nat)
    ensures n <= |s|
  {
    if s != "" && IsDigit(s[0]) then 1 + DigitRun(s[1..]) else 0
  }

  function Pow10(n: nat): (p: nat)
    ensures p >= 1
  {
    if n == 0 then 1 else 10 * Pow10(n - 1)
  }

  datatype Number = NotANumber | Infinite(negative: bool) | Finite(value: real)

  /** `v` scaled by the exponent part at the head of `s`: sign and digits after `e`, if they are there. */
  function Scaled(v: real, s: string): real {
    if s == "" || (s[0] != 'e' && s[0] != 'E') then v
    else
      var signed := |s| > 1 && (s[1] == '+' || s[1] == '-');
      var digits := if signed then s[2..] else s[1..];
      var n := DigitRun(digits);
      if n == 0 then v
      else if signed && s[1] == '-' then v / (Pow10(Val(digits[..n])) as real)
      else v * (Pow10(Val(digits[..n])) as real)
  }

  /** The digits after a decimal point. */
  function Fraction(part: string): real {
    Val(part) as real / (Pow10(|part|) as real)
  }

  /** A literal with digits before and after the point, and what follows it. */
  function Literal(whole: string, part: string, rest: string): Number {
    if whole == "" && part == "" then NotANumber
    else Finite(Scaled(Val(whole) as real + Fraction(part), rest))
  }

  /** The longest decimal literal at the head of a string without a sign. */
  function ParseUnsigned(s: string): Number {
    if "Infinity" <= s then Infinite(false)
    else
      var n := DigitRun(s);
      if n < |s| && s[n] == '.' then
        var m := DigitRun(s[n + 1..]);
        Literal(s[..n], s[n + 1..][..m], s[n + 1..][m..])
      else Literal(s[..n], "", s[n..])
  }

  function ParseFloat(s: string): Number {
    var t := TrimStart(s);
    if t != "" && t[0] == '-' then
      match ParseUnsigned(t[1..])
      case NotANumber => NotANumber
      case Infinite(_) => Infinite(true)
      case Finite(v) => Finite(-v)
    else ParseUnsigned(if t != "" && t[0] == '+' then t[1..] else t)
  }

  // ---- parsePrice ----

  /** Currency signs and white space. */
  predicate Decoration(c: char) {
    c == 'R' || c == '$' || c == '\U{20ac}' || c == '\U{00a3}' || IsSpace(c)
  }

  function Undecorated(s: string): string {
    if s == "" then "" else (if Decoration(s[0]) then "" else [s[0]]) + Undecorated(s[1..])
  }

  /** `replace(',', '.')`: the first comma only. */
  function CommaToDot(s: string): string {
    var k := IndexOf(s, ',');
    if k == -1 then s else s[..k] + "." + s[k + 1..]
  }

  /** The separator that comes last is the decimal one; a lone comma is judged by what follows it. */
  function Normalized(s: string): string {
    var lastDot, lastComma := LastIndexOf(s, '.'), LastIndexOf(s, ',');
    if lastDot != -1 && lastComma != -1 then
      if lastDot > lastComma then Without(s, {','}) else CommaToDot(Without(s, {'.'}))
    else if lastComma != -1 then
      if |s| - lastComma - 1 <= 2 then CommaToDot(s) else Without(s, {','})
    else s
  }

  /** The price a cell stands for; anything unreadable is zero. */
  function PriceOf(s: string): Number {
    var cleaned := Trim(Undecorated(s));
    if cleaned == "" then Finite(0.0)
    else
      var price := ParseFloat(Normalized(cleaned));
      if price.NotANumber? then Finite(0.0) else price
  }

  /** `parsePrice`, rewriting `cleaned` in place. */
  method ParsePrice(s: string) returns (price: Number)
    ensures price == PriceOf(s) && !price.NotANumber?
  {
    if s == "" {
      return Finite(0.0);
    }
    var cleaned := Trim(Undecorated(s));
    if cleaned == "" {
      return Finite(0.0);
    }
    var lastDot := LastIndexOf(cleaned, '.');
    var lastComma := LastIndexOf(cleaned, ',');
    if lastDot != -1 && lastComma != -1 {
      if lastDot > lastComma {
        cleaned := Without(cleaned, {','});
      } else {
        cleaned := Without(cleaned, {'.'});
        cleaned := CommaToDot(cleaned);
      }
    } else if lastComma != -1 {
      var digitsAfterComma := |cleaned| - lastComma - 1;
      if digitsAfterComma <= 2 {
        cleaned := CommaToDot(cleaned);
      } else {
        cleaned := Without(cleaned, {','});
      }
    }
    price := ParseFloat(cleaned);
    if price.NotANumber? {
      price := Finite(0.0);
    }
  }

  // ---- the printer ----

  function Digit(d: nat): char
    requires d < 10
  {
    ('0' as int + d) as char
  }

  /** Decimal digits without leading zeros. */
  function Dec(n: nat): string {
    if n < 10 then [Digit(n)] else Dec(n / 10) + [Digit(n % 10)]
  }

  function Pad2(n: nat): string
    requires n < 100
  {
    [Digit(n / 10), Digit(n % 10)]
  }

  function Pad3(n: nat): string
    requires n < 1000
  {
    [Digit(n / 100)] + Pad2(n % 100)
  }

  /** Digits in groups of three. */
  function Grouped(n: nat, sep: char): string {
    if n < 1000 then Dec(n) else Grouped(n / 1000, sep) + [sep] + Pad3(n % 1000)
  }

  /** An amount of cents: with or without grouping, in Brazilian or in US form. */
  function PrintCents(n: nat, brazilian: bool, grouped: bool): string {
    var sep, mark := if brazilian then '.' else ',', if brazilian then ',' else '.';
    (if grouped then Grouped(n / 100, sep) else Dec(n / 100)) + [mark] + Pad2(n % 100)
  }

  // ---- reading it back ----

  lemma {:induction false} DigitRunOf(d: string, rest: string)
    requires AllDigits(d) && (rest == "" || !IsDigit(rest[0]))
    ensures DigitRun(d + rest) == |d|
  {
    if d == "" {
      assert d + rest == rest;
    } else {
      assert (d + rest)[0] == d[0] && d[0] in d && (d + rest)[1..] == d[1..] + rest;
      DigitRunOf(d[1..], rest);
    }
  }

  lemma ValAppend(a: string, d: nat)
    requires d < 10
    ensures Val(a + [Digit(d)]) == Val(a) * 10 + d
  {
    assert (a + [Digit(d)])[..|a|] == a;
  }

  lemma ValPad2(a: string, n: nat)
    requires n < 100
    ensures Val(a + Pad2(n)) == Val(a) * 100 + n
  {
    assert a + Pad2(n) == a + [Digit(n / 10)] + [Digit(n % 10)];
    ValAppend(a, n / 10);
    ValAppend(a + [Digit(n / 10)], n % 10);
  }

  lemma ValPad3(a: string, n: nat)
    requires n < 1000
    ensures Val(a + Pad3(n)) == Val(a) * 1000 + n
  {
    assert a + Pad3(n) == a + [Digit(n / 100)] + Pad2(n % 100);
    ValAppend(a, n / 100);
    ValPad2(a + [Digit(n / 100)], n % 100);
  }

  lemma {:induction false} DecValue(n: nat)
    ensures Dec(n) != "" && AllDigits(Dec(n)) && Val(Dec(n)) == n
  {
    if n < 10 {
      ValAppend("", n);
      assert "" + [Digit(n)] == [Digit(n)];
    } else {
      DecValue(n / 10);
      ValAppend(Dec(n / 10), n % 10);
    }
  }

  /** Digits and separators, which without the separators are the digits of `n`. */
  predicate Spells(s: string, n: nat, sep: char) {
    && (forall c | c in s :: IsDigit(c) || c == sep)
    && AllDigits(Without(s, {sep})) && Without(s, {sep}) != "" && Val(Without(s, {sep})) == n
  }

  lemma ValThree(a: string, b: string)
    requires |b| == 3
    ensures Val(a + b) == Val(a) * 1000 + Val(b)
  {
    ValLast(a + b);
    ValLast(a + b[..2]);
    ValLast(a + b[..1]);
    ValLast(b);
    ValLast(b[..2]);
    ValLast(b[..1]);
    assert (a + b)[..|a| + 2] == a + b[..2] && (a + b[..2])[..|a| + 1] == a + b[..1];
    assert (a + b[..1])[..|a|] == a && b[..2][..1] == b[..1] && b[..1][..0] == "";
  }

  lemma ValLast(s: string)
    requires s != ""
    ensures Val(s) == Val(s[..|s| - 1]) * 10 + DigitValue(s[|s| - 1])
  {
  }

  lemma Pad3Digits(n: nat)
    requires n < 1000
    ensures |Pad3(n)| == 3 && AllDigits(Pad3(n)) && Val(Pad3(n)) == n
  {
    ValPad3("", n);
    assert "" + Pad3(n) == Pad3(n);
  }

  lemma Pad2Digits(n: nat)
    requires n < 100
    ensures |Pad2(n)| == 2 && AllDigits(Pad2(n)) && Val(Pad2(n)) == n
  {
    ValPad2("", n);
    assert "" + Pad2(n) == Pad2(n);
  }

  lemma WithoutOnly(sep: char)
    ensures Without([sep], {sep}) == ""
  {
  }

  /** One more group of three. */
  lemma SpellsMore(head: string, n: nat, sep: char, tail: string)
    requires Spells(head, n, sep) && !IsDigit(sep) && AllDigits(tail) && |tail| == 3
    ensures Spells(head + [sep] + tail, n * 1000 + Val(tail), sep)
  {
    WithoutOnly(sep);
    hide Without, Val;
    WithoutConcat(head + [sep], tail, {sep});
    WithoutConcat(head, [sep], {sep});
    WithoutNothing(tail, {sep});
    assert Without(head + [sep] + tail, {sep}) == Without(head, {sep}) + tail;
    ValThree(Without(head, {sep}), tail);
  }

  lemma {:induction false} GroupedSpells(n: nat, sep: char)
    requires !IsDigit(sep)
    ensures Spells(Grouped(n, sep), n, sep)
  {
    if n < 1000 {
      DecSpells(n, sep);
    } else {
      GroupedSpells(n / 1000, sep);
      Pad3Digits(n % 1000);
      SpellsMore(Grouped(n / 1000, sep), n / 1000, sep, Pad3(n % 1000));
    }
  }

  lemma DecSpells(n: nat, sep: char)
    requires !IsDigit(sep)
    ensures Spells(Dec(n), n, sep)
  {
    DecValue(n);
    WithoutNothing(Dec(n), {sep});
  }

  lemma SplitAtDot(whole: string, tail: string)
    requires AllDigits(whole)
    ensures var s := whole + ("." + tail);
      DigitRun(s) == |whole| && s[..|whole|] == whole && s[|whole|] == '.' && s[|whole| + 1..] == tail
  {
    DigitRunOf(whole, "." + tail);
  }

  lemma Regroup(whole: string, part: string, rest: string)
    ensures whole + "." + part + rest == whole + ("." + (part + rest))
  {
  }

  lemma ParseUnsignedDotted(whole: string, part: string, rest: string)
    requires whole != "" && AllDigits(whole) && AllDigits(part)
    requires rest == "" || !IsDigit(rest[0])
    requires !("Infinity" <= whole + ("." + (part + rest)))
    ensures ParseUnsigned(whole + ("." + (part + rest))) == Literal(whole, part, rest)
  {
    var tail := part + rest;
    SplitAtDot(whole, tail);
    DigitRunOf(part, rest);
    assert tail[..|part|] == part && tail[|part|..] == rest;
  }

  /** A literal with a decimal point is split where it was put together. */
  lemma ParseLiteral(whole: string, part: string, rest: string)
    requires whole != "" && AllDigits(whole) && AllDigits(part)
    requires rest == "" || !IsDigit(rest[0])
    ensures ParseFloat(whole + "." + part + rest) == Literal(whole, part, rest)
  {
    Regroup(whole, part, rest);
    StartsWithDigit(whole, "." + (part + rest));
    ParseUnsignedDotted(whole, part, rest);
  }

  lemma FractionOf(part: string)
    ensures |part| == 2 ==> Fraction(part) == Val(part) as real / 100.0
    ensures |part| == 3 ==> Fraction(part) == Val(part) as real / 1000.0
  {
    assert Pow10(2) == 100 && Pow10(3) == 1000;
  }

  /** A literal with two decimals is read exactly. */
  lemma ParseCents(whole: string, part: string)
    requires whole != "" && AllDigits(whole) && AllDigits(part) && |part| == 2
    ensures ParseFloat(whole + "." + part) == Finite(Val(whole) as real + Val(part) as real / 100.0)
  {
    ParseLiteral(whole, part, "");
    assert whole + "." + part + "" == whole + "." + part;
    FractionOf(part);
  }

  /** A string that opens with a digit has no sign, no leading space and is not `Infinity`. */
  lemma StartsWithDigit(whole: string, rest: string)
    requires whole != "" && AllDigits(whole)
    ensures ParseFloat(whole + rest) == ParseUnsigned(whole + rest)
    ensures !("Infinity" <= whole + rest)
  {
    var s := whole + rest;
    assert whole[0] in whole && s[0] == whole[0];
    assert TrimStart(s) == s;
    assert "Infinity"[0] == 'I';
  }

  lemma LastOf(a: string, c: char, b: string)
    requires c !in b
    ensures LastIndexOf(a + [c] + b, c) == |a|
  {
    hide LastIndexOf;
    var s := a + [c] + b;
    assert s[|a|] == c && s[|a| + 1..] == b;
    var k := LastIndexOf(s, c);
    assert k >= |a|;
    assert forall j | |a| < j < |s| :: s[j] == b[j - |a| - 1];
  }

  lemma MarkedComma(a: string, b: string)
    requires ',' !in a
    ensures CommaToDot(a + "," + b) == a + "." + b
  {
    var s := a + "," + b;
    assert s[..|a|] == a && s[|a|] == ',' && s[|a| + 1..] == b;
  }

  lemma WithoutMarked(whole: string, mark: char, part: string, sep: char)
    requires mark != sep && sep !in part
    ensures Without(whole + [mark] + part, {sep}) == Without(whole, {sep}) + [mark] + part
  {
    WithoutConcat(whole + [mark], part, {sep});
    WithoutConcat(whole, [mark], {sep});
    WithoutNothing(part, {sep});
    WithoutNothing([mark], {sep});
  }

  lemma InPrefix(a: string, b: string, c: char)
    requires c !in a + b
    ensures c !in a
  {
    forall j | 0 <= j < |a|
      ensures a[j] != c
    {
      assert (a + b)[j] == a[j];
    }
  }

  lemma NotInTail(whole: string, mark: char, part: string, sep: char, k: nat)
    requires mark != sep && sep !in part && |whole| <= k < |whole + [mark] + part|
    ensures (whole + [mark] + part)[k] != sep
  {
    if k > |whole| {
      assert (whole + [mark] + part)[k] == part[k - |whole| - 1];
    }
  }

  /** The grouping separator is absent, or comes before the decimal mark. */
  lemma SeparatorFirst(whole: string, mark: char, part: string, sep: char)
    requires mark != sep && sep !in part
    ensures LastIndexOf(whole + [mark] + part, sep) < |whole|
    ensures LastIndexOf(whole + [mark] + part, sep) == -1 ==> Without(whole, {sep}) == whole
  {
    hide Without, LastIndexOf;
    var k := LastIndexOf(whole + [mark] + part, sep);
    if k >= |whole| {
      NotInTail(whole, mark, part, sep, k);
    } else if k == -1 {
      InPrefix(whole + [mark], part, sep);
      InPrefix(whole, [mark], sep);
      WithoutNothing(whole, {sep});
    }
  }

  lemma NormalizeBrazilian(whole: string, n: nat, part: string)
    requires Spells(whole, n, '.') && AllDigits(part) && |part| == 2
    ensures Normalized(whole + [','] + part) == Without(whole, {'.'}) + "." + part
  {
    hide Without, LastIndexOf, CommaToDot;
    LastOf(whole, ',', part);
    SeparatorFirst(whole, ',', part, '.');
    WithoutMarked(whole, ',', part, '.');
    WithoutChars(whole, {'.'});
    MarkedComma(Without(whole, {'.'}), part);
  }

  lemma NormalizeAmerican(whole: string, n: nat, part: string)
    requires Spells(whole, n, ',') && AllDigits(part) && |part| == 2
    ensures Normalized(whole + ['.'] + part) == Without(whole, {','}) + "." + part
  {
    hide Without, LastIndexOf, CommaToDot;
    LastOf(whole, '.', part);
    SeparatorFirst(whole, '.', part, ',');
    WithoutMarked(whole, '.', part, ',');
  }

  lemma {:induction false} UndecoratedConcat(a: string, b: string)
    ensures Undecorated(a + b) == Undecorated(a) + Undecorated(b)
  {
    if a == "" {
      assert a + b == b;
    } else {
      var head := if Decoration(a[0]) then "" else [a[0]];
      assert (a + b)[0] == a[0] && (a + b)[1..] == a[1..] + b;
      UndecoratedConcat(a[1..], b);
      assert head + (Undecorated(a[1..]) + Undecorated(b)) == (head + Undecorated(a[1..])) + Undecorated(b);
    }
  }

  lemma {:induction false} UndecoratedPlain(s: string)
    requires forall c | c in s :: !Decoration(c)
    ensures Undecorated(s) == s
  {
    if s != "" {
      UndecoratedPlain(s[1..]);
    }
  }

  lemma {:induction false} UndecoratedAway(s: string)
    requires forall c | c in s :: Decoration(c)
    ensures Undecorated(s) == ""
  {
    if s != "" {
      UndecoratedAway(s[1..]);
    }
  }

  /** Currency signs and white space around a plain amount do not matter. */
  lemma Bare(before: string, s: string, after: string)
    requires forall c | c in before + after :: Decoration(c)
    requires forall c | c in s :: !Decoration(c)
    ensures Trim(Undecorated(before + s + after)) == s
  {
    hide Undecorated, Trim;
    assert forall c | c in before :: c in before + after;
    assert forall c | c in after :: c in before + after;
    UndecoratedConcat(before + s, after);
    UndecoratedConcat(before, s);
    UndecoratedAway(before);
    UndecoratedAway(after);
    UndecoratedPlain(s);
    assert "" + s + "" == s;
    PlainTidy(s);
    TidyIsTrimmed(s);
  }

  lemma PlainTidy(s: string)
    requires forall c | c in s :: !Decoration(c)
    ensures Tidy(s)
  {
    if s != "" {
      assert !Decoration(s[0]) && !Decoration(s[|s| - 1]);
    }
  }

  lemma PrintedShape(n: nat, brazilian: bool, grouped: bool) returns (whole: string, part: string)
    ensures AllDigits(part) && |part| == 2 && Val(part) == n % 100
    ensures Spells(whole, n / 100, if brazilian then '.' else ',')
    ensures PrintCents(n, brazilian, grouped) == whole + [if brazilian then ',' else '.'] + part
  {
    var sep := if brazilian then '.' else ',';
    whole, part := if grouped then Grouped(n / 100, sep) else Dec(n / 100), Pad2(n % 100);
    Pad2Digits(n % 100);
    GroupedSpells(n / 100, sep);
    DecSpells(n / 100, sep);
  }

  /**
   Every amount, printed with two decimals in either form, grouped or not, with any currency
   signs and spaces around it, is read back as exactly that amount.
   */
  lemma PriceRoundTrip(n: nat, brazilian: bool, grouped: bool, before: string, after: string)
    requires forall c | c in before + after :: Decoration(c)
    ensures PriceOf(before + PrintCents(n, brazilian, grouped) + after) == Finite(n as real / 100.0)
  {
    hide ParseFloat, Normalized, Undecorated, Trim, PrintCents, Val;
    var whole, part := PrintedShape(n, brazilian, grouped);
    var sep := if brazilian then '.' else ',';
    var s := PrintCents(n, brazilian, grouped);
    Bare(before, s, after);
    if brazilian {
      NormalizeBrazilian(whole, n / 100, part);
    } else {
      NormalizeAmerican(whole, n / 100, part);
    }
    ParseCents(Without(whole, {sep}), part);
    CentsAddUp(n);
  }

  lemma CentsAddUp(n: nat)
    ensures (n / 100) as real + (n % 100) as real / 100.0 == n as real / 100.0
  {
    assert n == 100 * (n / 100) + n % 100;
    assert n as real == 100.0 * (n / 100) as real + (n % 100) as real;
  }

  // ---- whole amounts ----

  lemma NoFraction()
    ensures Fraction("") == 0.0
  {
  }

  lemma PlainWhole(s: string)
    requires s != "" && AllDigits(s)
    ensures ParseFloat(s) == Finite(Val(s) as real)
  {
    hide ParseFloat, Val;
    assert s + "" == s;
    StartsWithDigit(s, "");
    DigitRunOf(s, "");
    assert s[..|s|] == s && s[|s|..] == "";
    NoFraction();
  }

  /** Grouped the US way, a whole amount is read exactly. */
  lemma AmericanWhole(n: nat)
    ensures PriceOf(Grouped(n, ',')) == Finite(n as real)
  {
    hide ParseFloat, Undecorated, Trim, Without, LastIndexOf, Grouped;
    var s := Grouped(n, ',');
    GroupedSpells(n, ',');
    Bare("", s, "");
    assert "" + s + "" == s;
    LastGroup(n, ',');
    if LastIndexOf(s, ',') == -1 {
      WithoutNothing(s, {','});
    }
    PlainWhole(Without(s, {','}));
  }

  /** After the last separator of a grouped number come three digits. */
  lemma LastGroup(n: nat, sep: char)
    requires !IsDigit(sep)
    ensures Grouped(n, sep) != ""
    ensures n >= 1000 ==> LastIndexOf(Grouped(n, sep), sep) == |Grouped(n, sep)| - 4
    ensures n < 1000 ==> LastIndexOf(Grouped(n, sep), sep) == -1
  {
    if n >= 1000 {
      Pad3Digits(n % 1000);
      LastOf(Grouped(n / 1000, sep), sep, Pad3(n % 1000));
    } else {
      DecValue(n);
    }
  }

  /** A grouped number of 1000 or more opens with a number below 1000, a separator and three digits. */
  lemma {:induction false} FirstGroups(n: nat, sep: char) returns (first: string, second: string, rest: string)
    requires n >= 1000 && !IsDigit(sep)
    ensures Grouped(n, sep) == first + [sep] + second + rest
    ensures first != "" && AllDigits(first) && Val(first) < 1000
    ensures AllDigits(second) && |second| == 3 && Val(second) < 1000
    ensures rest == "" || rest[0] == sep
  {
    var tail := Pad3(n % 1000);
    Pad3Digits(n % 1000);
    if n / 1000 < 1000 {
      DecValue(n / 1000);
      first, second, rest := Dec(n / 1000), tail, "";
      assert first + [sep] + second + rest == first + [sep] + second;
    } else {
      first, second, rest := FirstGroups(n / 1000, sep);
      var more := rest + [sep] + tail;
      assert first + [sep] + second + more == first + [sep] + second + rest + [sep] + tail;
      rest := more;
    }
  }

  lemma ParseThousandths(first: string, second: string, rest: string)
    requires first != "" && AllDigits(first) && AllDigits(second) && |second| == 3
    requires rest == "" || rest[0] == '.'
    ensures ParseFloat(first + ['.'] + second + rest)
         == Finite(Val(first) as real + Val(second) as real / 1000.0)
  {
    ParseLiteral(first, second, rest);
    FractionOf(second);
  }

  /** Without commas there is nothing to rewrite. */
  lemma NoCommas(s: string)
    requires s != "" && ',' !in s && forall c | c in s :: !Decoration(c)
    ensures PriceOf(s) == if ParseFloat(s).NotANumber? then Finite(0.0) else ParseFloat(s)
  {
    hide ParseFloat;
    Bare("", s, "");
    assert "" + s + "" == s;
  }

  lemma BrazilianThousands(n: nat)
    requires n >= 1000
    ensures exists v: real :: PriceOf(Grouped(n, '.')) == Finite(v) && v < 1000.0
  {
    var s := Grouped(n, '.');
    var first, second, rest := FirstGroups(n, '.');
    hide ParseFloat, PriceOf, Grouped;
    GroupedSpells(n, '.');
    ParseThousandths(first, second, rest);
    NoCommas(s);
    assert Val(first) as real + Val(second) as real / 1000.0 < 1000.0;
  }

  /**
   Grouped the Brazilian way and without decimals, a whole amount is read exactly when it needs
   no grouping: from 1000 on, the first dot is taken for the decimal point.
   */
  lemma BrazilianWhole(n: nat)
    ensures PriceOf(Grouped(n, '.')) == Finite(n as real) <==> n < 1000
  {
    hide ParseFloat, PriceOf;
    if n < 1000 {
      DecValue(n);
      NoCommas(Dec(n));
      PlainWhole(Dec(n));
    } else {
      BrazilianThousands(n);
    }
  }

  // ---- any other amount ----

  /** The signs that are dropped wherever they stand: R, $, the euro and pound signs, and white space. */
  lemma DecorationExactly(c: char)
    ensures Decoration(c) <==>
      c == 'R' || c == '$' || c as int == 0x20ac || c as int == 0xa3 || IsSpace(c)
  {
  }

  lemma PlainDigits(s: string)
    requires AllDigits(s)
    ensures ',' !in s && '.' !in s && forall c | c in s :: !Decoration(c)
  {
  }

  lemma PlainMarked(whole: string, mark: char, part: string)
    requires AllDigits(whole) && AllDigits(part) && (mark == ',' || mark == '.')
    ensures forall c | c in whole + [mark] + part :: !Decoration(c)
  {
    PlainDigits(whole);
    PlainDigits(part);
  }

  /** With a dot the amount is the literal itself, however many decimals there are. */
  lemma DottedRead(whole: string, part: string)
    requires whole != "" && AllDigits(whole) && AllDigits(part)
    ensures PriceOf(whole + "." + part)
         == Finite(Val(whole) as real + Val(part) as real / (Pow10(|part|) as real))
  {
    hide ParseFloat, Val, PriceOf, Decoration;
    PlainDigits(whole);
    PlainDigits(part);
    PlainMarked(whole, '.', part);
    var s := whole + "." + part;
    NoCommas(s);
    ParseLiteral(whole, part, "");
    assert s + "" == s;
  }

  lemma CommaStays(whole: string, part: string)
    requires AllDigits(whole) && AllDigits(part)
    ensures Trim(Undecorated(whole + "," + part)) == whole + "," + part
  {
    hide Undecorated, Trim;
    var s := whole + "," + part;
    PlainMarked(whole, ',', part);
    Bare("", s, "");
    assert "" + s + "" == s;
  }

  lemma CommaDropped(whole: string, part: string)
    requires AllDigits(whole) && AllDigits(part)
    ensures Without(whole + "," + part, {','}) == whole + part
  {
    hide Without;
    PlainDigits(whole);
    PlainDigits(part);
    WithoutConcat(whole + ",", part, {','});
    WithoutConcat(whole, ",", {','});
    WithoutNothing(whole, {','});
    WithoutNothing(part, {','});
    OnlyComma();
  }

  lemma LoneComma(whole: string, part: string)
    requires AllDigits(whole) && AllDigits(part)
    ensures Normalized(whole + "," + part) == if |part| <= 2 then whole + "." + part else whole + part
  {
    hide Without, LastIndexOf, CommaToDot, AllDigits;
    NoDot(whole, part);
    LastComma(whole, part);
    if |part| <= 2 {
      MarkedCommaOf(whole, part);
    } else {
      CommaDropped(whole, part);
    }
  }

  lemma LastComma(whole: string, part: string)
    requires AllDigits(part)
    ensures LastIndexOf(whole + "," + part, ',') == |whole|
  {
    hide LastIndexOf;
    PlainDigits(part);
    LastOf(whole, ',', part);
  }

  lemma MarkedCommaOf(whole: string, part: string)
    requires AllDigits(whole)
    ensures CommaToDot(whole + "," + part) == whole + "." + part
  {
    hide CommaToDot;
    PlainDigits(whole);
    MarkedComma(whole, part);
  }

  lemma OnlyComma()
    ensures Without(",", {','}) == ""
  {
  }

  lemma NoDot(whole: string, part: string)
    requires AllDigits(whole) && AllDigits(part)
    ensures LastIndexOf(whole + "," + part, '.') == -1
  {
    PlainDigits(whole);
    PlainDigits(part);
    assert '.' !in whole + "," + part;
  }

  /**
   A lone comma: with one or two digits after it (or none) it is the decimal mark, with three or
   more it groups.
   */
  lemma CommaRead(whole: string, part: string)
    requires whole != "" && AllDigits(whole) && AllDigits(part)
    ensures PriceOf(whole + "," + part) ==
      if |part| <= 2 then Finite(Val(whole) as real + Val(part) as real / (Pow10(|part|) as real))
      else Finite(Val(whole + part) as real)
  {
    hide ParseFloat, Val, Undecorated, Trim, Normalized;
    CommaStays(whole, part);
    LoneComma(whole, part);
    assert whole + "," + part != "";
    if |part| <= 2 {
      ParseLiteral(whole, part, "");
      assert whole + "." + part + "" == whole + "." + part;
    } else {
      PlainWhole(whole + part);
    }
  }

  /** An amount in scientific notation is scaled by its power of ten. */
  lemma ExponentRead(whole: string, part: string, digits: string)
    requires whole != "" && AllDigits(whole) && AllDigits(part) && digits != "" && AllDigits(digits)
    ensures ParseFloat(whole + "." + part + ("e" + digits))
         == Finite((Val(whole) as real + Fraction(part)) * (Pow10(Val(digits)) as real))
    ensures ParseFloat(whole + "." + part + ("e-" + digits))
         == Finite((Val(whole) as real + Fraction(part)) / (Pow10(Val(digits)) as real))
  {
    hide ParseFloat, Val, Fraction, Pow10;
    DigitRunOf(digits, "");
    assert digits + "" == digits && digits[..|digits|] == digits;
    assert ("e" + digits)[1..] == digits && ("e-" + digits)[2..] == digits;
    assert digits[0] in digits;
    ParseLiteral(whole, part, "e" + digits);
    ParseLiteral(whole, part, "e-" + digits);
  }

  /** What cannot be the beginning of a number reads as nothing. */
  lemma UnreadableIsZero(s: string)
    requires s != "" && forall c | c in s :: !Decoration(c)
    requires ',' !in s && s[0] != '-' && s[0] != '+' && s[0] != '.' && !IsDigit(s[0]) && !("Infinity" <= s)
    ensures PriceOf(s) == Finite(0.0)
  {
    NoCommas(s);
    assert TrimStart(s) == s;
    assert s[..0] == "";
  }

  /** Of several commas only the first is taken for a decimal mark. */
  lemma FirstCommaOnly(before: string, after: string)
    requires ',' !in before
    ensures CommaToDot(before + "," + after) == before + "." + after
  {
    MarkedComma(before, after);
  }

  lemma DotUnsigned(part: string)
    requires AllDigits(part)
    ensures ParseUnsigned("." + part) == Literal("", part, "")
  {
    hide Literal;
    var s := "." + part;
    assert s[0] == '.' && s[0 + 1..] == part;
    DigitRunOf(part, "");
    assert part + "" == part && part[..|part|] == part && part[|part|..] == "";
    assert s[..0] == "";
  }

  /** Digits before the dot may be missing. */
  lemma LeadingDot(part: string)
    requires part != "" && AllDigits(part)
    ensures ParseFloat("." + part) == Finite(Val(part) as real / (Pow10(|part|) as real))
  {
    hide Val, Pow10, ParseUnsigned;
    assert ("." + part)[0] == '.' && TrimStart("." + part) == "." + part;
    DotUnsigned(part);
    NoDigits();
  }

  lemma NoDigits()
    ensures Val("") == 0
  {
  }

  /** A minus sign makes the number negative. */
  lemma NegativeRead(s: string)
    requires s != "" && AllDigits(s)
    ensures ParseFloat("-" + s) == Finite(-(Val(s) as real))
  {
    hide Val;
    assert ("-" + s)[1..] == s && TrimStart("-" + s) == "-" + s;
    PlainWhole(s);
    StartsWithDigit(s, "");
    assert s + "" == s;
  }
}
