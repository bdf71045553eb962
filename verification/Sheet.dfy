/** The spreadsheet parser: from CSV content to sanitised products. */
module Sheet {
  import opened Arithmetic
  import opened Text
  import opened Csv
  import opened Price

  const TIMESTAMP := "Carimbo de data/hora"
  const MAX_FILE_SIZE: nat := 5 * 1024 * 1024
  const MAX_LINES: nat := 10000
  const MAX_NAME: nat := 500
  const DANGEROUS: set<char> := {'<', '>', '"', '\'', '&'}

  datatype Platform = Platform(name: string, columnIndex: nat)

  datatype Optional = Absent | Present(text: string)

  datatype ParsedProduct = ParsedProduct(
    name: string, price: Number, platform: string, region: Optional, timestamp: Optional)

  datatype ParseError = ContentRequired | TooLarge | TooManyLines | TooFewLines

  datatype ParseResult = Parsed(products: seq<ParsedProduct>) | Refused(error: ParseError)

  /** The title of a time stamp column. */
  predicate IsTitle(s: string) {
    s == TIMESTAMP
  }

  predicate HasTitle(s: string) {
    Includes(s, TIMESTAMP)
  }

  // ---- names ----

  /** Every tag, from `<` to the next `>`, removed. */
  function StripTags(s: string): string
    decreases |s|
  {
    if s == "" then ""
    else if s[0] == '<' && '>' in s[1..] then StripTags(s[1..][IndexOf(s[1..], '>') + 1..])
    else [s[0]] + StripTags(s[1..])
  }

  function Sanitize(s: string): string {
    var safe := Without(StripTags(s), DANGEROUS);
    if |safe| > MAX_NAME then safe[..MAX_NAME] else safe
  }

  /** Every parenthesised group removed, with the white space around it. */
  function DropGroups(s: string): string
    decreases |s|
  {
    if s == "" then ""
    else
      var t := TrimStart(s);
      TrimStartTidy(s);
      if t != "" && t[0] == '(' && ')' in t[1..] then
        var rest := t[1..][IndexOf(t[1..], ')') + 1..];
        TrimStartTidy(rest);
        DropGroups(TrimStart(rest))
      else [s[0]] + DropGroups(s[1..])
  }

  function CleanName(s: string): string {
    Trim(DropGroups(s))
  }

  function Lower(c: char): char {
    if 'A' <= c <= 'Z' then (c as int + 32) as char else c
  }

  function LowerCase(s: string): string {
    seq(|s|, i requires 0 <= i < |s| => Lower(s[i]))
  }

  /** The text inside the first parentheses that hold any. */
  function FirstGroup(s: string): Optional {
    if s == "" then Absent
    else if s[0] == '(' && IndexOf(s[1..], ')') > 0 then Present(s[1..][..IndexOf(s[1..], ')')])
    else FirstGroup(s[1..])
  }

  const REGIONS := ["br", "ar", "eu", "latam", "global", "conta"]

  /** The first region that a group mentions, under any of its spellings. */
  function RegionOf(group: string): Optional {
    var s := LowerCase(group);
    if Includes(s, "brasil") || Includes(s, "brazil") || Includes(s, "br") then Present("br")
    else if Includes(s, "argentina") || Includes(s, "ar") then Present("ar")
    else if Includes(s, "europa") || Includes(s, "europe") || Includes(s, "eu") then Present("eu")
    else if Includes(s, "latam") || Includes(s, "latina") then Present("latam")
    else if Includes(s, "global") then Present("global")
    else if Includes(s, "conta") then Present("conta")
    else Absent
  }

  function ExtractRegion(name: string): (r: Optional)
    ensures r.Present? ==> r.text in REGIONS
  {
    match FirstGroup(name)
    case Absent => Absent
    case Present(group) => RegionOf(group)
  }

  lemma SanitizeSafe(s: string)
    ensures |Sanitize(s)| <= MAX_NAME
    ensures forall c | c in Sanitize(s) :: c !in DANGEROUS
  {
    WithoutChars(StripTags(s), DANGEROUS);
  }

  lemma {:induction false} DropGroupsChars(s: string)
    ensures |DropGroups(s)| <= |s|
    ensures forall c | c in DropGroups(s) :: c in s
    decreases |s|
  {
    if s != "" {
      var t := TrimStart(s);
      TrimStartTidy(s);
      TrimStartChars(s);
      if t != "" && t[0] == '(' && ')' in t[1..] {
        var rest := t[1..][IndexOf(t[1..], ')') + 1..];
        TrimStartTidy(rest);
        TrimStartChars(rest);
        DropGroupsChars(TrimStart(rest));
      } else {
        DropGroupsChars(s[1..]);
      }
    }
  }

  /** Whatever the cell held, the stored name is short, tidy and free of dangerous characters. */
  lemma StoredNameSafe(s: string)
    ensures |CleanName(Sanitize(s))| <= MAX_NAME && Tidy(CleanName(Sanitize(s)))
    ensures forall c | c in CleanName(Sanitize(s)) :: c !in DANGEROUS
  {
    SanitizeSafe(s);
    DropGroupsChars(Sanitize(s));
    TrimTidy(DropGroups(Sanitize(s)));
    TrimChars(DropGroups(Sanitize(s)));
  }

  // ---- platforms ----

  function Upper(c: char): char {
    if 'a' <= c <= 'z' then (c as int - 32) as char else c
  }

  function UpperCase(s: string): string {
    seq(|s|, i requires 0 <= i < |s| => Upper(s[i]))
  }

  /** Starts with one of the platform words, in either case. */
  predicate IsPlatform(s: string) {
    var u := UpperCase(s);
    "XBOX" <= u || "STEAM" <= u || "PC" <= u || "NINTENDO" <= u || "PLAYSTATION" <= u || "PS" <= u
  }

  predicate NamesPlatform(part: string) {
    Trim(part) != "" && !HasTitle(Trim(part)) && IsPlatform(Trim(part))
  }

  function PlatformNames(parts: seq<string>): seq<string> {
    if parts == [] then []
    else
      var last := parts[|parts| - 1];
      PlatformNames(parts[..|parts| - 1]) + if NamesPlatform(last) then [Trim(last)] else []
  }

  /** The columns whose sub-header is the time stamp title, in order. */
  function TimestampColumns(parts: seq<string>): (cols: seq<nat>)
    ensures forall a | 0 <= a < |cols| :: cols[a] < |parts|
    ensures forall a, b | 0 <= a < b < |cols| :: cols[a] < cols[b]
  {
    if parts == [] then []
    else
      TimestampColumns(parts[..|parts| - 1])
      + if IsTitle(Trim(parts[|parts| - 1])) then [|parts| - 1] else []
  }

  const DEFAULT_NAMES := ["XBOX", "STEAM/PC", "NINTENDO E-SHOP", "PLAYSTATION"]

  /** Names from the header, or default names, one per time stamp column. */
  function NamesFor(header: seq<string>, sub: seq<string>): seq<string> {
    if PlatformNames(header) != [] then PlatformNames(header)
    else DEFAULT_NAMES[..Min(|TimestampColumns(sub)|, |DEFAULT_NAMES|)]
  }

  predicate Increasing(ps: seq<Platform>) {
    forall a, b | 0 <= a < b < |ps| :: ps[a].columnIndex < ps[b].columnIndex
  }

  /** The n-th platform sits at the n-th time stamp column; without any, fixed positions are used. */
  predicate PlatformsOf(header: seq<string>, sub: seq<string>, ps: seq<Platform>) {
    var names, cols := NamesFor(header, sub), TimestampColumns(sub);
    if Min(|names|, |cols|) == 0
    then ps == DefaultPlatforms()
    else ps == Assigned(names, cols)
  }

  function Assigned(names: seq<string>, cols: seq<nat>): seq<Platform> {
    seq(Min(|names|, |cols|), i requires 0 <= i < Min(|names|, |cols|) => Platform(names[i], cols[i]))
  }

  method FindNames(header: seq<string>, sub: seq<string>) returns (names: seq<string>)
    ensures names == NamesFor(header, sub)
  {
    names := [];
    for n := 0 to |header|
      invariant names == PlatformNames(header[..n])
    {
      assert header[..n + 1][..n] == header[..n];
      var trimmed := Trim(header[n]);
      if trimmed != "" && !HasTitle(trimmed) && IsPlatform(trimmed) {
        names := names + [trimmed];
      }
    }
    assert header[..|header|] == header;
    if names == [] {
      var count := CountTimestamps(sub);
      names := DEFAULT_NAMES[..Min(count, |DEFAULT_NAMES|)];
    }
  }

  function DefaultPlatforms(): seq<Platform> {
    seq(4, i requires 0 <= i < 4 => Platform(DEFAULT_NAMES[i], 3 * i))
  }

  method ExtractPlatforms(headerLine: string, subHeaderLine: string) returns (platforms: seq<Platform>)
    ensures PlatformsOf(Fields(headerLine), Fields(subHeaderLine), platforms)
    ensures Increasing(platforms) && platforms != []
  {
    var sub := ParseCsvLine(subHeaderLine);
    var header := ParseCsvLine(headerLine);
    var names := FindNames(header, sub);
    platforms := AssignColumns(names, sub);
    if platforms == [] {
      platforms := DefaultPlatforms();
    }
    ColumnsIncrease(header, sub, platforms);
  }

  lemma ColumnsIncrease(header: seq<string>, sub: seq<string>, ps: seq<Platform>)
    requires PlatformsOf(header, sub, ps)
    ensures Increasing(ps) && ps != []
  {
  }

  method CountTimestamps(parts: seq<string>) returns (count: nat)
    ensures count == |TimestampColumns(parts)|
  {
    count := 0;
    for n := 0 to |parts|
      invariant count == |TimestampColumns(parts[..n])|
    {
      assert parts[..n + 1][..n] == parts[..n];
      if IsTitle(Trim(parts[n])) {
        count := count + 1;
      }
    }
    assert parts[..|parts|] == parts;
  }

  /** The loop over the sub-header with `nameIndex`. */
  method AssignColumns(names: seq<string>, sub: seq<string>) returns (platforms: seq<Platform>)
    ensures platforms == Assigned(names, TimestampColumns(sub))
  {
    platforms := [];
    var nameIndex := 0;
    ghost var cols := TimestampColumns(sub);
    for i := 0 to |sub|
      invariant TimestampColumns(sub[..i]) <= cols
      invariant nameIndex == |platforms| == Min(|names|, |TimestampColumns(sub[..i])|)
      invariant forall k | 0 <= k < nameIndex :: platforms[k] == Platform(names[k], cols[k])
    {
      assert sub[..i + 1][..i] == sub[..i];
      ColumnsGrow(sub, i + 1);
      if IsTitle(Trim(sub[i])) && nameIndex < |names| {
        platforms := platforms + [Platform(names[nameIndex], i)];
        nameIndex := nameIndex + 1;
      }
    }
    assert sub[..|sub|] == sub;
  }

  lemma {:induction false} ColumnsGrow(parts: seq<string>, n: nat)
    requires n <= |parts|
    ensures TimestampColumns(parts[..n]) <= TimestampColumns(parts)
  {
    if n < |parts| {
      ColumnsGrow(parts[..|parts| - 1], n);
      assert parts[..|parts| - 1][..n] == parts[..n];
    } else {
      assert parts[..n] == parts;
    }
  }

  // ---- rows ----

  predicate Positive(x: Number) {
    match x
    case NotANumber => false
    case Infinite(negative) => !negative
    case Finite(v) => v > 0.0
  }

  /** The product that three trimmed cells describe, as a list of at most one. */
  function FromCells(
    timestamp: string, name: string, priceStr: string, price: Number, platform: string): seq<ParsedProduct>
  {
    if name == "" || priceStr == "" || HasTitle(name) || !Positive(price) then []
    else [ParsedProduct(CleanName(Sanitize(name)), price, platform, ExtractRegion(Sanitize(name)),
                        if timestamp != "" then Present(Sanitize(timestamp)) else Absent)]
  }

  /** What one platform finds in one row; every cell read lies inside the row. */
  function ProductAt(row: seq<string>, p: Platform): seq<ParsedProduct> {
    var c := p.columnIndex;
    if c + 2 >= |row| then []
    else FromCells(Trim(row[c]), Trim(row[c + 1]), Trim(row[c + 2]), PriceOf(Trim(row[c + 2])), p.name)
  }

  function RowProducts(row: seq<string>, ps: seq<Platform>): seq<ParsedProduct> {
    if ps == [] then [] else RowProducts(row, ps[..|ps| - 1]) + ProductAt(row, ps[|ps| - 1])
  }

  /** Row by row, and in each row platform by platform. */
  function AllProducts(lines: seq<string>, ps: seq<Platform>): seq<ParsedProduct> {
    if lines == [] then []
    else AllProducts(lines[..|lines| - 1], ps) + RowProducts(Fields(lines[|lines| - 1]), ps)
  }

  predicate Stored(p: ParsedProduct) {
    && Positive(p.price) && |p.name| <= MAX_NAME && Tidy(p.name)
    && (p.region.Present? ==> p.region.text in REGIONS)
    && forall c | c in p.name :: c !in DANGEROUS
  }

  lemma FromCellsStored(timestamp: string, name: string, priceStr: string, price: Number, platform: string)
    ensures forall p | p in FromCells(timestamp, name, priceStr, price, platform) :: Stored(p)
  {
    hide CleanName, Sanitize, HasTitle, ExtractRegion;
    StoredNameSafe(name);
  }

  lemma {:induction false} RowStored(row: seq<string>, ps: seq<Platform>)
    ensures forall p | p in RowProducts(row, ps) :: Stored(p)
  {
    hide FromCells, PriceOf, Stored;
    if ps != [] {
      RowStored(row, ps[..|ps| - 1]);
      var c := ps[|ps| - 1].columnIndex;
      if c + 2 < |row| {
        FromCellsStored(Trim(row[c]), Trim(row[c + 1]), Trim(row[c + 2]), PriceOf(Trim(row[c + 2])),
                        ps[|ps| - 1].name);
      }
    }
  }

  lemma {:induction false} AllStored(lines: seq<string>, ps: seq<Platform>)
    ensures forall p | p in AllProducts(lines, ps) :: Stored(p)
  {
    if lines != [] {
      AllStored(lines[..|lines| - 1], ps);
      RowStored(Fields(lines[|lines| - 1]), ps);
    }
  }

  /** `split('\n')` */
  function SplitLines(s: string): (lines: seq<string>)
    ensures lines != []
    decreases |s|
  {
    var k := IndexOf(s, '\n');
    if k == -1 then [s] else [s[..k]] + SplitLines(s[k + 1..])
  }

  method ReadCells(timestamp: string, name: string, priceStr: string, platform: string)
    returns (products: seq<ParsedProduct>)
    ensures products == FromCells(timestamp, name, priceStr, PriceOf(priceStr), platform)
  {
    if name == "" || priceStr == "" || HasTitle(name) {
      return [];
    }
    var price := ParsePrice(priceStr);
    if !Positive(price) {
      return [];
    }
    var sanitizedName := Sanitize(name);
    return [ParsedProduct(
      CleanName(sanitizedName), price, platform, ExtractRegion(sanitizedName),
      if timestamp != "" then Present(Sanitize(timestamp)) else Absent)];
  }

  method ReadAt(row: seq<string>, p: Platform) returns (products: seq<ParsedProduct>)
    ensures products == ProductAt(row, p)
  {
    hide FromCells;
    var index := p.columnIndex;
    if index + 2 >= |row| {
      return [];
    }
    products := ReadCells(Trim(row[index]), Trim(row[index + 1]), Trim(row[index + 2]), p.name);
  }

  method ParseRow(row: seq<string>, platforms: seq<Platform>) returns (products: seq<ParsedProduct>)
    ensures products == RowProducts(row, platforms)
  {
    products := [];
    for n := 0 to |platforms|
      invariant products == RowProducts(row, platforms[..n])
    {
      var found := ReadAt(row, platforms[n]);
      RowStep(row, platforms, n);
      products := products + found;
    }
    assert platforms[..|platforms|] == platforms;
  }

  lemma RowStep(row: seq<string>, ps: seq<Platform>, n: nat)
    requires n < |ps|
    ensures RowProducts(row, ps[..n + 1]) == RowProducts(row, ps[..n]) + ProductAt(row, ps[n])
  {
    assert ps[..n + 1][..n] == ps[..n];
  }

  /** What `parse` answers, in terms of the lines of the trimmed content. */
  ghost predicate ParsesTo(content: string, r: ParseResult) {
    var lines := SplitLines(Trim(content));
    if content == "" then r == Refused(ContentRequired)
    else if |content| > MAX_FILE_SIZE then r == Refused(TooLarge)
    else if |lines| > MAX_LINES then r == Refused(TooManyLines)
    else if |lines| < 3 then r == Refused(TooFewLines)
    else exists ps :: PlatformsOf(Fields(lines[0]), Fields(lines[1]), ps)
                      && r == Parsed(AllProducts(lines[2..], ps))
  }

  method ParseRows(data: seq<string>, platforms: seq<Platform>) returns (products: seq<ParsedProduct>)
    ensures products == AllProducts(data, platforms)
  {
    products := [];
    for n := 0 to |data|
      invariant products == AllProducts(data[..n], platforms)
    {
      assert data[..n + 1][..n] == data[..n];
      var row := ParseCsvLine(data[n]);
      var more := ParseRow(row, platforms);
      products := products + more;
    }
    assert data[..|data|] == data;
  }

  /** `parse`; everything it returns is safe to store. */
  method Parse(content: string) returns (r: ParseResult)
    ensures ParsesTo(content, r)
    ensures r.Parsed? ==> forall p | p in r.products :: Stored(p)
  {
    if content == "" {
      return Refused(ContentRequired);
    }
    if |content| > MAX_FILE_SIZE {
      return Refused(TooLarge);
    }
    var lines := SplitLines(Trim(content));
    if |lines| > MAX_LINES {
      return Refused(TooManyLines);
    }
    if |lines| < 3 {
      return Refused(TooFewLines);
    }
    var platforms := ExtractPlatforms(lines[0], lines[1]);
    var products := ParseRows(lines[2..], platforms);
    AllStored(lines[2..], platforms);
    return Parsed(products);
  }
}
