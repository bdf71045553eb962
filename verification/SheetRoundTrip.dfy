/**
 A whole sheet, printed and parsed: any number of platforms and rows, prices in either
 locale, every cell quoted, comes back as exactly the products it was printed from.
 */
module SheetRoundTrip {
  import opened Text
  import opened Csv
  import opened Price
  import opened Sheet
  import opened Regions

  /** What one platform has in one row: nothing, or a game with a price in cents. */
  datatype Entry =
    | Blank
    | Game(timestamp: string, name: string, gap: string, tag: string, priceText: string, cents: nat)

  /** Titles of the two columns after the time stamp. */
  datatype Titles = Titles(game: string, price: string)

  // ---- what may be written ----

  /** A cell that survives trimming and line splitting. */
  predicate Writable(s: string) {
    Tidy(s) && '\n' !in s
  }

  /** Text that sanitising leaves alone. */
  predicate Harmless(s: string) {
    Writable(s) && |s| <= MAX_NAME && forall c | c in s :: c !in DANGEROUS
  }

  /** A price cell: the amount in either form, with currency signs and spaces around it. */
  ghost predicate PriceText(text: string, cents: nat) {
    Writable(text) && exists brazilian, grouped, before, after ::
      && (forall c | c in before + after :: Decoration(c))
      && text == before + PrintCents(cents, brazilian, grouped) + after
  }

  ghost predicate WritableEntry(e: Entry) {
    e.Game? ==>
      && Harmless(e.timestamp) && Harmless(NameCell(e)) && !HasTitle(NameCell(e))
      && e.name != "" && Tidy(e.name) && '(' !in e.name
      && ')' !in e.tag && (forall c | c in e.gap :: IsSpace(c))
      && e.cents > 0 && PriceText(e.priceText, e.cents)
  }

  ghost predicate WritableRow(es: seq<Entry>, width: nat) {
    |es| == width && forall e | e in es :: WritableEntry(e)
  }

  predicate WritableName(name: string) {
    Writable(name) && NamesPlatform(name)
  }

  predicate WritableTitles(t: Titles) {
    Writable(t.game) && Writable(t.price) && !IsTitle(t.game) && !IsTitle(t.price)
  }

  // ---- the printer ----

  /** The name, with a group such as a region after it unless the tag is empty. */
  function NameCell(e: Entry): string
    requires e.Game?
  {
    if e.tag == "" then e.name else e.name + (e.gap + ("(" + e.tag + ")"))
  }

  function Cells(e: Entry): seq<string> {
    if e.Blank? then ["", "", ""] else [e.timestamp, NameCell(e), e.priceText]
  }

  function RowTexts(es: seq<Entry>): seq<string> {
    if es == [] then [] else RowTexts(es[..|es| - 1]) + Cells(es[|es| - 1])
  }

  function SubTexts(k: nat, t: Titles): seq<string> {
    if k == 0 then [] else SubTexts(k - 1, t) + [TIMESTAMP, t.game, t.price]
  }

  function QuoteAll(texts: seq<string>): seq<Cell> {
    seq(|texts|, i requires 0 <= i < |texts| => Quoted(texts[i]))
  }

  function QuotedLine(texts: seq<string>): string {
    if texts == [] then "" else PrintLine(QuoteAll(texts))
  }

  function DataLines(rows: seq<seq<Entry>>): seq<string> {
    if rows == [] then []
    else DataLines(rows[..|rows| - 1]) + [QuotedLine(RowTexts(rows[|rows| - 1]))]
  }

  function JoinLines(lines: seq<string>): string
    requires lines != []
  {
    if |lines| == 1 then lines[0] else lines[0] + "\n" + JoinLines(lines[1..])
  }

  function SheetLines(names: seq<string>, t: Titles, rows: seq<seq<Entry>>): seq<string> {
    [QuotedLine(names), QuotedLine(SubTexts(|names|, t))] + DataLines(rows)
  }

  function Render(names: seq<string>, t: Titles, rows: seq<seq<Entry>>): string {
    JoinLines(SheetLines(names, t, rows))
  }

  // ---- what is expected back ----

  ghost function EntryProducts(e: Entry, platform: string): seq<ParsedProduct> {
    if e.Blank? then []
    else [ParsedProduct(e.name, Finite(e.cents as real / 100.0), platform, RegionNamed(e.tag),
                        if e.timestamp != "" then Present(e.timestamp) else Absent)]
  }

  ghost function ExpectedRow(es: seq<Entry>, names: seq<string>): seq<ParsedProduct>
    requires |es| <= |names|
  {
    if es == [] then []
    else ExpectedRow(es[..|es| - 1], names) + EntryProducts(es[|es| - 1], names[|es| - 1])
  }

  ghost function Expected(rows: seq<seq<Entry>>, names: seq<string>): seq<ParsedProduct>
    requires forall es | es in rows :: WritableRow(es, |names|)
  {
    if rows == [] then []
    else
      assert WritableRow(rows[|rows| - 1], |names|);
      Expected(rows[..|rows| - 1], names) + ExpectedRow(rows[|rows| - 1], names)
  }

  // ---- cells and rows ----

  lemma {:induction false} RowTextsLength(es: seq<Entry>)
    ensures |RowTexts(es)| == 3 * |es|
  {
    if es != [] {
      RowTextsLength(es[..|es| - 1]);
    }
  }

  lemma {:induction false} RowTextsAt(es: seq<Entry>, j: nat)
    requires j < |es|
    ensures |RowTexts(es)| == 3 * |es|
    ensures RowTexts(es)[3 * j..3 * j + 3] == Cells(es[j])
  {
    RowTextsLength(es);
    RowTextsLength(es[..|es| - 1]);
    var front := RowTexts(es[..|es| - 1]);
    if j < |es| - 1 {
      RowTextsAt(es[..|es| - 1], j);
      assert RowTexts(es)[3 * j..3 * j + 3] == front[3 * j..3 * j + 3];
    } else {
      assert RowTexts(es)[3 * j..3 * j + 3] == Cells(es[j]);
    }
  }

  lemma {:induction false} SubTextsShape(k: nat, t: Titles)
    ensures |SubTexts(k, t)| == 3 * k
  {
    if k > 0 {
      SubTextsShape(k - 1, t);
    }
  }

  lemma ColumnsAppend(parts: seq<string>, s: string)
    requires Writable(s)
    ensures TimestampColumns(parts + [s])
         == TimestampColumns(parts) + if IsTitle(s) then [|parts|] else []
  {
    TidyIsTrimmed(s);
    assert (parts + [s])[..|parts|] == parts;
  }

  lemma TitleTidy()
    ensures Writable(TIMESTAMP) && IsTitle(TIMESTAMP)
  {
  }

  lemma OneByOne(front: seq<string>, a: string, b: string, c: string)
    ensures front + [a, b, c] == front + [a] + [b] + [c]
  {
  }

  lemma ThreeColumns(front: seq<string>, title: string, t: Titles)
    requires Writable(title) && IsTitle(title) && WritableTitles(t)
    ensures TimestampColumns(front + [title, t.game, t.price]) == TimestampColumns(front) + [|front|]
  {
    hide TimestampColumns, Writable, IsTitle;
    ColumnsAppend(front, title);
    ColumnsAppend(front + [title], t.game);
    ColumnsAppend(front + [title] + [t.game], t.price);
    OneByOne(front, title, t.game, t.price);
  }

  lemma {:induction false} SubColumns(k: nat, t: Titles)
    requires WritableTitles(t)
    ensures |TimestampColumns(SubTexts(k, t))| == k
    ensures forall j | 0 <= j < k :: TimestampColumns(SubTexts(k, t))[j] == 3 * j
  {
    hide WritableTitles, Writable, IsTitle;
    if k > 0 {
      hide TimestampColumns;
      SubColumns(k - 1, t);
      SubTextsShape(k - 1, t);
      TitleTidy();
      ThreeColumns(SubTexts(k - 1, t), TIMESTAMP, t);
    }
  }

  lemma {:induction false} NamesKept(names: seq<string>)
    requires forall name | name in names :: WritableName(name)
    ensures PlatformNames(names) == names
  {
    if names != [] {
      var last := names[|names| - 1];
      NamesKept(names[..|names| - 1]);
      assert last in names;
      TidyIsTrimmed(last);
      assert names == names[..|names| - 1] + [last];
    }
  }

  lemma {:induction false} TextsKept(texts: seq<string>)
    requires forall s | s in texts :: Tidy(s)
    ensures Texts(QuoteAll(texts)) == texts
  {
    if texts != [] {
      assert texts[0] in texts;
      TidyIsTrimmed(texts[0]);
      assert QuoteAll(texts)[1..] == QuoteAll(texts[1..]);
      TextsKept(texts[1..]);
      assert texts == [texts[0]] + texts[1..];
    }
  }

  /** Reading a quoted line gives its cells. */
  lemma LineKept(texts: seq<string>)
    requires texts != [] && forall s | s in texts :: Tidy(s)
    ensures Fields(QuotedLine(texts)) == texts
  {
    CsvRoundTrip(QuoteAll(texts));
    TextsKept(texts);
  }

  lemma {:induction false} EscapeKeepsLine(s: string)
    requires '\n' !in s
    ensures '\n' !in Escape(s)
  {
    if s != "" {
      assert s[0] in s;
      EscapeKeepsLine(s[1..]);
    }
  }

  /** A quoted line has no line break and is quoted at both ends. */
  predicate Framed(line: string) {
    line != "" && line[0] == '"' && line[|line| - 1] == '"' && '\n' !in line
  }

  lemma {:induction false} LineFramed(texts: seq<string>)
    requires texts != [] && forall s | s in texts :: '\n' !in s
    ensures Framed(QuotedLine(texts))
  {
    var cells := QuoteAll(texts);
    assert texts[0] in texts;
    EscapeKeepsLine(texts[0]);
    if |texts| > 1 {
      LineFramed(texts[1..]);
      assert cells[1..] == QuoteAll(texts[1..]);
      assert QuotedLine(texts) == PrintCell(cells[0]) + "," + QuotedLine(texts[1..]);
    }
  }

  lemma {:induction false} LinesTidy(lines: seq<string>)
    requires lines != [] && forall line | line in lines :: Framed(line)
    ensures JoinLines(lines) != "" && JoinLines(lines)[0] == '"'
    ensures JoinLines(lines)[|JoinLines(lines)| - 1] == '"'
  {
    assert lines[0] in lines;
    if |lines| > 1 {
      LinesTidy(lines[1..]);
    }
  }

  lemma SplitFirst(first: string, rest: string)
    requires '\n' !in first
    ensures SplitLines(first + "\n" + rest) == [first] + SplitLines(rest)
  {
    var s := first + "\n" + rest;
    assert s[..|first|] == first && s[|first|] == '\n' && s[|first| + 1..] == rest;
    IndexIsFirst(s, '\n', |first|);
  }

  lemma {:induction false} LinesKept(lines: seq<string>)
    requires lines != [] && forall line | line in lines :: Framed(line)
    ensures SplitLines(JoinLines(lines)) == lines
  {
    assert Framed(lines[0]);
    if |lines| > 1 {
      LinesKept(lines[1..]);
      SplitFirst(lines[0], JoinLines(lines[1..]));
      assert lines == [lines[0]] + lines[1..];
    }
  }

  // ---- products ----

  lemma {:induction false} NoTags(s: string)
    requires '<' !in s
    ensures StripTags(s) == s
  {
    if s != "" {
      assert s[0] in s;
      NoTags(s[1..]);
    }
  }

  lemma HarmlessKept(s: string)
    requires Harmless(s)
    ensures Sanitize(s) == s && Trim(s) == s
  {
    assert '<' in DANGEROUS;
    NoTags(s);
    WithoutNothing(s, DANGEROUS);
    TidyIsTrimmed(s);
  }

  lemma {:induction false} NoGroups(s: string)
    requires '(' !in s
    ensures DropGroups(s) == s
  {
    if s != "" {
      TrimStartChars(s);
      var t := TrimStart(s);
      assert t != "" ==> t[0] in t;
      NoGroups(s[1..]);
    }
  }

  lemma PriceTextRead(text: string, cents: nat)
    requires PriceText(text, cents)
    ensures text != "" && Tidy(text) && PriceOf(text) == Finite(cents as real / 100.0)
  {
    var brazilian, grouped, before, after :|
      && (forall c | c in before + after :: Decoration(c))
      && text == before + PrintCents(cents, brazilian, grouped) + after;
    var whole, part := PrintedShape(cents, brazilian, grouped);
    PriceRoundTrip(cents, brazilian, grouped, before, after);
  }

  lemma {:induction false} TrimSpaces(gap: string, rest: string)
    requires forall c | c in gap :: IsSpace(c)
    ensures TrimStart(gap + rest) == TrimStart(rest)
  {
    if gap == "" {
      assert gap + rest == rest;
    } else {
      assert (gap + rest)[0] == gap[0] && (gap + rest)[1..] == gap[1..] + rest;
      TrimSpaces(gap[1..], rest);
    }
  }

  /** Trimming in front of a text that ends in a letter stays inside that text. */
  lemma {:induction false} TrimInside(a: string, b: string)
    requires a != "" && !IsSpace(a[|a| - 1])
    ensures TrimStart(a + b) != "" && TrimStart(a + b)[0] in a
  {
    assert (a + b)[0] == a[0] && (a + b)[1..] == a[1..] + b;
    if IsSpace(a[0]) {
      TrimInside(a[1..], b);
    }
  }

  lemma GroupGone(gap: string, tag: string, after: string)
    requires ')' !in tag && forall c | c in gap :: IsSpace(c)
    ensures DropGroups(gap + ("(" + tag + ")" + after)) == DropGroups(TrimStart(after))
  {
    var tail := "(" + tag + ")" + after;
    TrimSpaces(gap, tail);
    assert TrimStart(tail) == tail;
    var inner := tail[1..];
    assert inner == tag + ")" + after && inner[..|tag|] == tag && inner[|tag|] == ')';
    IndexIsFirst(inner, ')', |tag|);
    assert inner[|tag| + 1..] == after;
  }

  /** A group is dropped with the space around it. */
  lemma {:induction false} GroupDropped(name: string, gap: string, tag: string, after: string)
    requires name != "" ==> !IsSpace(name[|name| - 1])
    requires '(' !in name && ')' !in tag && forall c | c in gap :: IsSpace(c)
    ensures DropGroups(name + (gap + ("(" + tag + ")" + after))) == name + DropGroups(TrimStart(after))
  {
    hide DropGroups, TrimStart, IsSpace;
    var tail := gap + ("(" + tag + ")" + after);
    if name == "" {
      GroupGone(gap, tag, after);
      assert name + tail == tail;
    } else {
      GroupDropped(name[1..], gap, tag, after);
      FirstKept(name, tail);
      assert name == [name[0]] + name[1..];
    }
  }

  lemma FirstKept(name: string, tail: string)
    requires name != "" && !IsSpace(name[|name| - 1]) && '(' !in name
    ensures DropGroups(name + tail) == [name[0]] + DropGroups(name[1..] + tail)
  {
    TrimInside(name, tail);
    assert (name + tail)[0] == name[0] && (name + tail)[1..] == name[1..] + tail;
  }

  /** A group that no parenthesis precedes is the first one. */
  lemma {:induction false} GroupFound(before: string, tag: string, after: string)
    requires '(' !in before && ')' !in tag && tag != ""
    ensures FirstGroup(before + ("(" + tag + ")" + after)) == Present(tag)
  {
    var tail := "(" + tag + ")" + after;
    var s := before + tail;
    if before == "" {
      assert s == tail && tail[1..] == tag + ")" + after;
      assert tail[1..][..|tag|] == tag && tail[1..][|tag|] == ')';
      IndexIsFirst(tail[1..], ')', |tag|);
    } else {
      assert s[0] == before[0] && s[1..] == before[1..] + tail;
      GroupFound(before[1..], tag, after);
    }
  }

  lemma {:induction false} NoGroupFound(s: string)
    requires '(' !in s
    ensures FirstGroup(s) == Absent
  {
    if s != "" {
      assert s[0] in s;
      NoGroupFound(s[1..]);
    }
  }

  lemma NoRegion()
    ensures RegionOf("") == Absent
  {
  }

  /**
   In a cell, what stands before and after a group is the name, and the group decides the
   region: letter by letter as `RegionNamed` says.
   */
  lemma GroupInCell(name: string, gap: string, tag: string, after: string)
    requires name != "" ==> !IsSpace(name[|name| - 1])
    requires '(' !in name + gap + after && ')' !in tag && tag != "" && forall c | c in gap :: IsSpace(c)
    ensures CleanName(name + (gap + ("(" + tag + ")" + after))) == Trim(name + TrimStart(after))
    ensures ExtractRegion(name + (gap + ("(" + tag + ")" + after))) == RegionNamed(tag)
  {
    hide RegionOf, RegionNamed, FirstGroup, DropGroups, Trim, TrimStart, IsSpace;
    var group := "(" + tag + ")" + after;
    GroupDropped(name, gap, tag, after);
    TrimStartChars(after);
    assert '(' !in after;
    NoGroups(TrimStart(after));
    Regrouped(name, gap, group);
    GroupFound(name + gap, tag, after);
    RegionExactly(tag);
  }

  lemma NoTagInCell(name: string)
    requires '(' !in name
    ensures CleanName(name) == Trim(name) && ExtractRegion(name) == RegionNamed("")
  {
    hide RegionNamed, RegionOf;
    NoGroups(name);
    NoGroupFound(name);
    NoRegion();
    RegionExactly("");
  }

  /** The name comes back without its group, and the group gives the region. */
  lemma NameKept(e: Entry)
    requires WritableEntry(e) && e.Game?
    ensures CleanName(Sanitize(NameCell(e))) == e.name
    ensures ExtractRegion(Sanitize(NameCell(e))) == RegionNamed(e.tag)
  {
    hide RegionOf, RegionNamed, PriceText, HasTitle, Sanitize, FirstGroup, DropGroups;
    HarmlessKept(NameCell(e));
    TidyIsTrimmed(e.name);
    if e.tag == "" {
      NoTagInCell(e.name);
    } else {
      SpaceOnly(e.gap);
      GroupInCell(e.name, e.gap, e.tag, "");
      assert "(" + e.tag + ")" + "" == "(" + e.tag + ")";
      assert e.name + TrimStart("") == e.name;
    }
  }

  lemma SpaceOnly(gap: string)
    requires forall c | c in gap :: IsSpace(c)
    ensures '(' !in gap
  {
  }

  lemma GameKept(e: Entry, name: string)
    requires WritableEntry(e) && e.Game?
    ensures FromCells(e.timestamp, NameCell(e), e.priceText, Finite(e.cents as real / 100.0), name)
         == EntryProducts(e, name)
  {
    hide PriceText, PriceOf, CleanName, Sanitize, HasTitle, ExtractRegion, RegionOf, RegionNamed;
    HarmlessKept(e.timestamp);
    NameKept(e);
    PriceTextRead(e.priceText, e.cents);
    assert e.cents as real / 100.0 > 0.0;
  }

  /** Three tidy cells are read as they stand. */
  lemma ReadsThree(row: seq<string>, c: nat, cells: seq<string>, name: string)
    requires c + 3 <= |row| && row[c..c + 3] == cells
    requires Tidy(cells[0]) && Tidy(cells[1]) && Tidy(cells[2])
    ensures ProductAt(row, Platform(name, c)) == FromCells(cells[0], cells[1], cells[2], PriceOf(cells[2]), name)
  {
    hide FromCells, PriceOf;
    assert row[c] == row[c..c + 3][0] && row[c + 1] == row[c..c + 3][1] && row[c + 2] == row[c..c + 3][2];
    TidyIsTrimmed(cells[0]);
    TidyIsTrimmed(cells[1]);
    TidyIsTrimmed(cells[2]);
  }

  lemma EntryKept(row: seq<string>, e: Entry, j: nat, name: string)
    requires WritableEntry(e) && 3 * j + 3 <= |row| && row[3 * j..3 * j + 3] == Cells(e)
    ensures ProductAt(row, Platform(name, 3 * j)) == EntryProducts(e, name)
  {
    hide PriceText, PriceOf, ProductAt, CleanName, Sanitize, HasTitle, ExtractRegion, RegionOf, RegionNamed;
    if e.Game? {
      PriceTextRead(e.priceText, e.cents);
      GameKept(e, name);
    }
    ReadsThree(row, 3 * j, Cells(e), name);
  }

  predicate AtThirds(names: seq<string>, ps: seq<Platform>) {
    |ps| == |names| && forall j | 0 <= j < |ps| :: ps[j] == Platform(names[j], 3 * j)
  }

  lemma {:induction false} RowKept(es: seq<Entry>, names: seq<string>, ps: seq<Platform>, n: nat)
    requires |es| == |names| && AtThirds(names, ps) && n <= |es|
    requires forall e | e in es :: WritableEntry(e)
    ensures RowProducts(RowTexts(es), ps[..n]) == ExpectedRow(es[..n], names)
  {
    hide ProductAt, EntryProducts, RowTexts, WritableEntry;
    if n > 0 {
      RowKept(es, names, ps, n - 1);
      CellKept(es, names, ps, n - 1);
      assert ps[..n][..n - 1] == ps[..n - 1] && es[..n][..n - 1] == es[..n - 1];
    }
  }

  lemma CellKept(es: seq<Entry>, names: seq<string>, ps: seq<Platform>, j: nat)
    requires j < |es| == |names| && AtThirds(names, ps) && WritableEntry(es[j])
    ensures ProductAt(RowTexts(es), ps[j]) == EntryProducts(es[j], names[j])
  {
    RowTextsAt(es, j);
    EntryKept(RowTexts(es), es[j], j, names[j]);
  }

  lemma {:induction false} RowWritable(es: seq<Entry>)
    requires forall e | e in es :: WritableEntry(e)
    ensures forall s | s in RowTexts(es) :: Writable(s)
  {
    if es != [] {
      var e := es[|es| - 1];
      RowWritable(es[..|es| - 1]);
      assert e in es;
    }
  }

  lemma {:induction false} SubWritable(k: nat, t: Titles)
    requires WritableTitles(t)
    ensures forall s | s in SubTexts(k, t) :: Writable(s)
  {
    if k > 0 {
      SubWritable(k - 1, t);
    }
  }

  lemma RowLine(es: seq<Entry>, names: seq<string>, ps: seq<Platform>)
    requires names != [] && WritableRow(es, |names|) && AtThirds(names, ps)
    ensures Framed(QuotedLine(RowTexts(es)))
    ensures RowProducts(Fields(QuotedLine(RowTexts(es))), ps) == ExpectedRow(es, names)
  {
    RowWritable(es);
    RowTextsLength(es);
    LineKept(RowTexts(es));
    LineFramed(RowTexts(es));
    RowKept(es, names, ps, |es|);
    assert ps[..|es|] == ps && es[..|es|] == es;
  }

  lemma {:induction false} RowsKept(rows: seq<seq<Entry>>, names: seq<string>, ps: seq<Platform>)
    requires names != [] && AtThirds(names, ps)
    requires forall es | es in rows :: WritableRow(es, |names|)
    ensures AllProducts(DataLines(rows), ps) == Expected(rows, names)
    ensures |DataLines(rows)| == |rows|
    ensures forall line | line in DataLines(rows) :: Framed(line)
  {
    if rows != [] {
      var es, front := rows[|rows| - 1], rows[..|rows| - 1];
      assert es in rows;
      RowsKept(front, names, ps);
      RowLine(es, names, ps);
      var lines := DataLines(rows);
      assert lines[..|lines| - 1] == DataLines(front);
    }
  }

  /** The platforms found in a printed header are the printed ones, three columns apart. */
  lemma HeaderKept(names: seq<string>, t: Titles, ps: seq<Platform>)
    requires names != [] && (forall name | name in names :: WritableName(name)) && WritableTitles(t)
    requires PlatformsOf(names, SubTexts(|names|, t), ps)
    ensures AtThirds(names, ps)
  {
    hide PlatformNames, TimestampColumns, SubTexts, WritableName, WritableTitles;
    NamesKept(names);
    SubColumns(|names|, t);
  }

  lemma HeaderLines(names: seq<string>, t: Titles)
    requires names != [] && (forall name | name in names :: WritableName(name)) && WritableTitles(t)
    ensures Framed(QuotedLine(names)) && Fields(QuotedLine(names)) == names
    ensures Framed(QuotedLine(SubTexts(|names|, t)))
    ensures Fields(QuotedLine(SubTexts(|names|, t))) == SubTexts(|names|, t)
  {
    SubTextsShape(|names|, t);
    SubWritable(|names|, t);
    LineFramed(names);
    LineFramed(SubTexts(|names|, t));
    LineKept(names);
    LineKept(SubTexts(|names|, t));
  }

  ghost predicate PrintableSheet(names: seq<string>, t: Titles, rows: seq<seq<Entry>>) {
    && names != [] && rows != [] && |rows| + 2 <= MAX_LINES
    && (forall name | name in names :: WritableName(name)) && WritableTitles(t)
    && forall es | es in rows :: WritableRow(es, |names|)
  }

  lemma FramedLines(names: seq<string>, t: Titles, rows: seq<seq<Entry>>)
    requires PrintableSheet(names, t, rows)
    ensures |SheetLines(names, t, rows)| == |rows| + 2
    ensures forall line | line in SheetLines(names, t, rows) :: Framed(line)
  {
    hide AllProducts, Expected, QuotedLine;
    HeaderLines(names, t);
    RowsKept(rows, names, seq(|names|, j requires 0 <= j < |names| => Platform(names[j], 3 * j)));
  }

  lemma PrintedLines(lines: seq<string>)
    requires lines != [] && forall line | line in lines :: Framed(line)
    ensures JoinLines(lines) != "" && SplitLines(Trim(JoinLines(lines))) == lines
  {
    LinesTidy(lines);
    TidyIsTrimmed(JoinLines(lines));
    LinesKept(lines);
  }

  /** Printing a sheet and parsing it gives exactly the games that were on it. */
  lemma SheetRoundTrip(names: seq<string>, t: Titles, rows: seq<seq<Entry>>, r: ParseResult)
    requires PrintableSheet(names, t, rows) && |Render(names, t, rows)| <= MAX_FILE_SIZE
    requires ParsesTo(Render(names, t, rows), r)
    ensures r == Parsed(Expected(rows, names))
  {
    FramedLines(names, t, rows);
    PrintedLines(SheetLines(names, t, rows));
    HeaderLines(names, t);
    var lines := SheetLines(names, t, rows);
    var ps :| PlatformsOf(Fields(lines[0]), Fields(lines[1]), ps) && r == Parsed(AllProducts(lines[2..], ps));
    HeaderKept(names, t, ps);
    RowsKept(rows, names, ps);
    assert lines[2..] == DataLines(rows);
  }
}
