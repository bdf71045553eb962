/** One CSV line: the quote-tracking loop, what it computes, and the printer it inverts. */
module Csv {
  import opened Text

  /** The fields of what is left of a line, given the field begun so far. */
  function Scan(rest: string, current: string, inQuotes: bool): seq<string>
    decreases |rest|
  {
    if rest == "" then [Trim(current)]
    else if rest[0] == '"' then
      if inQuotes && |rest| > 1 && rest[1] == '"' then Scan(rest[2..], current + "\"", true)
      else Scan(rest[1..], current, !inQuotes)
    else if rest[0] == ',' && !inQuotes then [Trim(current)] + Scan(rest[1..], "", false)
    else Scan(rest[1..], current + [rest[0]], inQuotes)
  }

  function Fields(line: string): seq<string> {
    Scan(line, "", false)
  }

  /** The loop over positions, which steps over the second of two doubled quotes. */
  method ParseCsvLine(line: string) returns (result: seq<string>)
    ensures result == Fields(line)
  {
    result := [];
    var current, inQuotes, i := "", false, 0;
    while i < |line|
      invariant i <= |line|
      invariant result + Scan(line[i..], current, inQuotes) == Fields(line)
    {
      var c := line[i];
      assert line[i..][1..] == line[i + 1..];
      if c == '"' {
        if inQuotes && i + 1 < |line| && line[i + 1] == '"' {
          assert line[i..][2..] == line[i + 2..];
          current := current + "\"";
          i := i + 1;
        } else {
          inQuotes := !inQuotes;
        }
      } else if c == ',' && !inQuotes {
        result := result + [Trim(current)];
        current := "";
      } else {
        current := current + [c];
      }
      i := i + 1;
    }
    result := result + [Trim(current)];
  }

  // ---- the printer ----

  /** Every quote doubled. */
  function Escape(s: string): string {
    if s == "" then ""
    else (if s[0] == '"' then "\"\"" else [s[0]]) + Escape(s[1..])
  }

  /** A cell as a writer may print it: always quoted, or bare when nothing in it needs quoting. */
  datatype Cell = Quoted(text: string) | Bare(text: string)

  predicate Printable(c: Cell) {
    c.Bare? ==> ',' !in c.text && '"' !in c.text
  }

  function PrintCell(c: Cell): string {
    if c.Quoted? then "\"" + Escape(c.text) + "\"" else c.text
  }

  function PrintLine(cells: seq<Cell>): string
    requires cells != []
  {
    if |cells| == 1 then PrintCell(cells[0])
    else PrintCell(cells[0]) + "," + PrintLine(cells[1..])
  }

  function Texts(cells: seq<Cell>): seq<string> {
    if cells == [] then [] else [Trim(cells[0].text)] + Texts(cells[1..])
  }

  /** The end of a field: the end of the line or a comma. */
  predicate AtEnd(rest: string) {
    rest == "" || rest[0] == ','
  }

  lemma ScanCell(c: Cell, rest: string)
    requires Printable(c) && AtEnd(rest)
    ensures Scan(PrintCell(c) + rest, "", false) == Scan(rest, c.text, false)
  {
    assert "" + c.text == c.text;
    if c.Quoted? {
      var tail := Escape(c.text) + "\"" + rest;
      assert PrintCell(c) + rest == "\"" + tail;
      OpenQuote(tail, "");
      ScanInQuotes(c.text, rest, "");
    } else {
      ScanPlain(c.text, rest, "");
    }
  }

  /** Printing any cells and parsing the line gives the cells back, trimmed. */
  lemma {:induction false} CsvRoundTrip(cells: seq<Cell>)
    requires cells != [] && forall c | c in cells :: Printable(c)
    ensures Fields(PrintLine(cells)) == Texts(cells)
  {
    hide PrintCell, Printable;
    if |cells| == 1 {
      ScanCell(cells[0], "");
      assert PrintCell(cells[0]) + "" == PrintCell(cells[0]);
    } else {
      var rest := "," + PrintLine(cells[1..]);
      ScanCell(cells[0], rest);
      CsvRoundTrip(cells[1..]);
      assert PrintLine(cells) == PrintCell(cells[0]) + rest;
      assert rest[1..] == PrintLine(cells[1..]);
    }
  }

  // ---- lines without quotes ----

  /** `split(',')` followed by `trim`. */
  function SplitTrim(line: string): seq<string>
    decreases |line|
  {
    var k := IndexOf(line, ',');
    if k == -1 then [Trim(line)] else [Trim(line[..k])] + SplitTrim(line[k + 1..])
  }

  /** On a line without quotes the loop is split-on-comma, then trim. */
  lemma {:induction false} PlainLine(line: string)
    requires '"' !in line
    ensures Fields(line) == SplitTrim(line)
    decreases |line|
  {
    hide Scan, IndexOf;
    var k := IndexOf(line, ',');
    if k == -1 {
      ScanPlain(line, "", "");
      assert line + "" == line && "" + line == line;
      ScanEnd(line);
    } else {
      var rest := line[k..];
      ScanPlain(line[..k], rest, "");
      assert line[..k] + rest == line && "" + line[..k] == line[..k];
      PlainLine(line[k + 1..]);
      assert rest[0] == ',' && rest[1..] == line[k + 1..];
      ScanComma(rest, line[..k]);
    }
  }

  lemma ScanEnd(current: string)
    ensures Scan("", current, false) == [Trim(current)]
  {
  }

  lemma ScanComma(rest: string, current: string)
    requires rest != "" && rest[0] == ','
    ensures Scan(rest, current, false) == [Trim(current)] + Fields(rest[1..])
  {
  }

  // ---- any other line ----

  /** Part of a field: quoted, with doubled quotes, or bare. */
  datatype Piece = InQuotes(text: string) | Plain(text: string)

  function PrintPiece(p: Piece): string {
    if p.InQuotes? then "\"" + Escape(p.text) + "\"" else p.text
  }

  function PrintPieces(ps: seq<Piece>): string {
    if ps == [] then "" else PrintPiece(ps[0]) + PrintPieces(ps[1..])
  }

  function TextOf(ps: seq<Piece>): string {
    if ps == [] then "" else ps[0].text + TextOf(ps[1..])
  }

  /** Bare pieces hold no comma and no quote, and two quoted pieces do not touch. */
  predicate Separate(ps: seq<Piece>) {
    && (forall p | p in ps && p.Plain? :: ',' !in p.text && '"' !in p.text && p.text != "")
    && (forall k | 0 < k < |ps| :: ps[k - 1].InQuotes? ==> ps[k].Plain?)
  }

  lemma {:induction false} ScanInQuotes(s: string, rest: string, current: string)
    requires rest == "" || rest[0] != '"'
    ensures Scan(Escape(s) + "\"" + rest, current, true) == Scan(rest, current + s, false)
  {
    var line := Escape(s) + "\"" + rest;
    if s == "" {
      assert line == "\"" + rest && line[1..] == rest && current + s == current;
    } else {
      var next := Escape(s[1..]) + "\"" + rest;
      ScanInQuotes(s[1..], rest, current + [s[0]]);
      assert current + [s[0]] + s[1..] == current + s;
      if s[0] == '"' {
        assert line[0] == '"' && line[1] == '"' && line[2..] == next;
      } else {
        assert line[0] == s[0] && line[1..] == next;
      }
    }
  }

  lemma {:induction false} ScanPlain(s: string, rest: string, current: string)
    requires ',' !in s && '"' !in s
    ensures Scan(s + rest, current, false) == Scan(rest, current + s, false)
  {
    if s == "" {
      assert s + rest == rest && current + s == current;
    } else {
      ScanPlain(s[1..], rest, current + [s[0]]);
      assert (s + rest)[0] == s[0] && (s + rest)[1..] == s[1..] + rest;
      assert current + [s[0]] + s[1..] == current + s;
    }
  }

  /** What follows a quoted piece does not begin with a quote. */
  lemma NextBegins(ps: seq<Piece>, rest: string)
    requires Separate(ps) && AtEnd(rest) && |ps| > 0 && ps[0].InQuotes?
    ensures var tail := PrintPieces(ps[1..]) + rest; tail == "" || tail[0] != '"'
  {
    if |ps| > 1 {
      assert ps[1].Plain? && ps[1] in ps;
      assert ps[1].text[0] in ps[1].text;
      assert PrintPieces(ps[1..])[0] == ps[1].text[0];
    }
  }

  lemma OpenQuote(tail: string, current: string)
    ensures Scan("\"" + tail, current, false) == Scan(tail, current, true)
  {
    assert ("\"" + tail)[1..] == tail;
  }

  lemma PieceRead(p: Piece, tail: string, current: string)
    requires if p.InQuotes? then tail == "" || tail[0] != '"' else ',' !in p.text && '"' !in p.text
    ensures Scan(PrintPiece(p) + tail, current, false) == Scan(tail, current + p.text, false)
  {
    hide Scan, Escape;
    if p.InQuotes? {
      var inner := Escape(p.text) + "\"" + tail;
      assert PrintPiece(p) + tail == "\"" + inner;
      OpenQuote(inner, current);
      ScanInQuotes(p.text, tail, current);
    } else {
      ScanPlain(p.text, tail, current);
    }
  }

  lemma PiecesSplit(ps: seq<Piece>, rest: string, current: string)
    requires ps != []
    ensures PrintPieces(ps) + rest == PrintPiece(ps[0]) + (PrintPieces(ps[1..]) + rest)
    ensures current + TextOf(ps) == current + ps[0].text + TextOf(ps[1..])
  {
    hide PrintPiece;
    Regrouped(PrintPiece(ps[0]), PrintPieces(ps[1..]), rest);
    Regrouped(current, ps[0].text, TextOf(ps[1..]));
  }

  lemma Regrouped(a: string, b: string, c: string)
    ensures (a + b) + c == a + (b + c)
  {
  }

  lemma SeparateTail(ps: seq<Piece>)
    requires Separate(ps) && ps != []
    ensures Separate(ps[1..]) && (ps[0].Plain? ==> ',' !in ps[0].text && '"' !in ps[0].text)
  {
    assert ps[0] in ps;
  }

  /** A field made of quoted and bare pieces is read as their texts, one after the other. */
  lemma {:induction false} ScanPieces(ps: seq<Piece>, rest: string, current: string)
    requires Separate(ps) && AtEnd(rest)
    ensures Scan(PrintPieces(ps) + rest, current, false) == Scan(rest, current + TextOf(ps), false)
  {
    hide Scan, Separate, PrintPiece;
    if ps == [] {
      assert PrintPieces(ps) + rest == rest && current + TextOf(ps) == current;
    } else {
      SeparateTail(ps);
      PiecesSplit(ps, rest, current);
      if ps[0].InQuotes? {
        NextBegins(ps, rest);
      }
      PieceRead(ps[0], PrintPieces(ps[1..]) + rest, current);
      ScanPieces(ps[1..], rest, current + ps[0].text);
    }
  }

  function PrintFields(fields: seq<seq<Piece>>): string
    requires fields != []
  {
    if |fields| == 1 then PrintPieces(fields[0])
    else PrintPieces(fields[0]) + "," + PrintFields(fields[1..])
  }

  function TrimmedTexts(fields: seq<seq<Piece>>): seq<string> {
    if fields == [] then [] else [Trim(TextOf(fields[0]))] + TrimmedTexts(fields[1..])
  }

  /** A line whose quotes are balanced, wherever they stand, is read as the trimmed texts of its fields. */
  lemma {:induction false} BalancedLine(fields: seq<seq<Piece>>)
    requires fields != [] && forall ps | ps in fields :: Separate(ps)
    ensures Fields(PrintFields(fields)) == TrimmedTexts(fields)
  {
    hide Separate, PrintPieces, TextOf;
    assert fields[0] in fields;
    if |fields| == 1 {
      ScanPieces(fields[0], "", "");
      assert PrintPieces(fields[0]) + "" == PrintPieces(fields[0]) && "" + TextOf(fields[0]) == TextOf(fields[0]);
      assert fields[1..] == [];
    } else {
      var rest := "," + PrintFields(fields[1..]);
      ScanPieces(fields[0], rest, "");
      BalancedLine(fields[1..]);
      assert PrintFields(fields) == PrintPieces(fields[0]) + rest && "" + TextOf(fields[0]) == TextOf(fields[0]);
      assert rest[0] == ',' && rest[1..] == PrintFields(fields[1..]);
    }
  }

  /** A quote that is never closed takes the rest of the line as it stands, doubled quotes halved. */
  lemma {:induction false} Unclosed(s: string, current: string)
    ensures Scan(Escape(s), current, true) == [Trim(current + s)]
  {
    if s == "" {
      assert current + s == current;
    } else {
      Unclosed(s[1..], current + [s[0]]);
      assert current + [s[0]] + s[1..] == current + s;
      var line := Escape(s);
      if s[0] == '"' {
        assert line[0] == '"' && line[1] == '"' && line[2..] == Escape(s[1..]);
      } else {
        assert line[0] == s[0] && line[1..] == Escape(s[1..]);
      }
    }
  }
}
