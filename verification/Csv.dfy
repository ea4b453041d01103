/**
 The two CSV printers, a reader for their LF-separated form of section 2 of RFC 4180, and the exact
 condition under which the reader recovers the table.
 */
module Csv {
  import opened Results

  /** A cell as the printers see it: null or undefined, or a value already turned into text. */
  datatype Cell = Null | Text(text: string)

  /** One property of a record, in insertion order. */
  datatype Field = Field(name: string, cell: Cell)

  type Record = seq<Field>

  // ---------------------------------------------------------------- printing

  predicate Special(c: char) {
    c == '"' || c == ',' || c == '\n'
  }

  /** No quote, comma or newline: printed as it stands. */
  predicate Plain(s: string) {
    forall i :: 0 <= i < |s| ==> !Special(s[i])
  }

  predicate Distinct(names: seq<string>) {
    forall i, j :: 0 <= i < j < |names| ==> names[i] != names[j]
  }

  /** A column name that needs no quoting. */
  type Name = s: string | Plain(s) witness ""

  /** The column names of a table: at least one, and none twice. */
  type Header = h: seq<Name> | h != [] && Distinct(h) witness [""]

  function DoubleQuotes(s: string): string {
    if s == "" then "" else (if s[0] == '"' then "\"\"" else [s[0]]) + DoubleQuotes(s[1..])
  }

  function Quote(s: string): string {
    if Plain(s) then s else "\"" + DoubleQuotes(s) + "\""
  }

  function ValueOf(c: Cell): string {
    if c.Null? then "" else c.text
  }

  function PrintCell(c: Cell): string {
    if c.Null? then "" else Quote(c.text)
  }

  function Join(parts: seq<string>, separator: char): string {
    if parts == [] then ""
    else if |parts| == 1 then parts[0]
    else parts[0] + [separator] + Join(parts[1..], separator)
  }

  function PrintRow(cells: seq<Cell>): string {
    Join(seq(|cells|, i requires 0 <= i < |cells| => PrintCell(cells[i])), ',')
  }

  function PrintLines(header: seq<string>, rows: seq<seq<Cell>>): (lines: seq<string>)
    ensures |lines| == |rows| + 1
  {
    [Join(header, ',')] + seq(|rows|, i requires 0 <= i < |rows| => PrintRow(rows[i]))
  }

  /** The pure printer: a fixed list of columns, the header always present. */
  function ToCsv(columns: seq<string>, rows: seq<seq<Cell>>): string {
    Join(PrintLines(columns, rows), '\n')
  }

  /** `r[h]`: the value of the property, or undefined. */
  function Lookup(r: Record, h: string): Cell {
    if r == [] then Null else if r[0].name == h then r[0].cell else Lookup(r[1..], h)
  }

  function Names(r: Record): (names: seq<string>)
    ensures |names| == |r|
  {
    seq(|r|, i requires 0 <= i < |r| => r[i].name)
  }

  function Pick(r: Record, header: seq<string>): (cells: seq<Cell>)
    ensures |cells| == |header|
  {
    seq(|header|, i requires 0 <= i < |header| => Lookup(r, header[i]))
  }

  function PickAll(rows: seq<Record>, header: seq<string>): (cells: seq<seq<Cell>>)
    ensures |cells| == |rows|
    ensures forall i :: 0 <= i < |rows| ==> |cells[i]| == |header|
  {
    seq(|rows|, i requires 0 <= i < |rows| => Pick(rows[i], header))
  }

  /** The record printer as a function: the header is the property names of the first record. */
  function RecordsToCsv(rows: seq<Record>): string {
    if rows == [] then "" else ToCsv(Names(rows[0]), PickAll(rows, Names(rows[0])))
  }

  /** The loop that pushes one line a record. */
  method PrintRecords(rows: seq<Record>) returns (text: string)
    ensures text == RecordsToCsv(rows)
    ensures rows == [] ==> text == ""
  {
    if |rows| == 0 { return ""; }
    var header := Names(rows[0]);
    var cells := PickAll(rows, header);
    var lines := [Join(header, ',')];
    for i := 0 to |rows|
      invariant lines == PrintLines(header, cells)[..i + 1]
    {
      assert PrintLines(header, cells)[i + 1] == PrintRow(cells[i]);
      lines := lines + [PrintRow(Pick(rows[i], header))];
    }
    assert PrintLines(header, cells)[..|rows| + 1] == PrintLines(header, cells);
    text := Join(lines, '\n');
  }

  /** A cell is printed as it stands exactly when it has no quote, comma or newline; otherwise between quotes,
      with one more for every quote in it. */
  lemma QuotedWhen(s: string)
    ensures Quote(s) == s <==> '"' !in s && ',' !in s && '\n' !in s
    ensures Quote(s) != s ==> Quote(s)[0] == '"' && Quote(s)[|Quote(s)| - 1] == '"'
    ensures Quote(s) != s ==> |Quote(s)| == |s| + 2 + multiset(s)['"']
  {
    DoubledLength(s);
    assert Plain(s) <==> '"' !in s && ',' !in s && '\n' !in s;
  }

  lemma {:induction false} DoubledLength(s: string)
    ensures |DoubleQuotes(s)| == |s| + multiset(s)['"']
  {
    if s != "" {
      DoubledLength(s[1..]);
      assert s == [s[0]] + s[1..];
    }
  }

  // ---------------------------------------------------------------- reading

  /** An unquoted field: everything up to the next comma, newline or end. A quote inside is an error. */
  function ReadPlain(s: string): (r: Option<(string, string)>)
    ensures r.Some? ==> s == r.value.0 + r.value.1 && Plain(r.value.0)
    ensures r.Some? ==> r.value.1 == "" || r.value.1[0] == ',' || r.value.1[0] == '\n'
  {
    if s == "" || s[0] == ',' || s[0] == '\n' then Some(("", s))
    else if s[0] == '"' then None
    else
      match ReadPlain(s[1..])
      case None => None
      case Some((field, rest)) => Some(([s[0]] + field, rest))
  }

  /** The inside of a quoted field: doubled quotes stand for one, a single quote ends it. */
  function ReadQuoted(s: string): (r: Option<(string, string)>)
    ensures r.Some? ==> |r.value.1| + |r.value.0| < |s|
  {
    if s == "" then None
    else if s[0] != '"' then
      match ReadQuoted(s[1..])
      case None => None
      case Some((field, rest)) => Some(([s[0]] + field, rest))
    else if |s| > 1 && s[1] == '"' then
      match ReadQuoted(s[2..])
      case None => None
      case Some((field, rest)) => Some(("\"" + field, rest))
    else Some(("", s[1..]))
  }

  function ReadField(s: string): (r: Option<(string, string)>)
    ensures r.Some? ==> |r.value.1| <= |s|
  {
    if s != "" && s[0] == '"' then ReadQuoted(s[1..]) else ReadPlain(s)
  }

  /** One record; what is left is empty or starts with the newline that ended it. */
  function ReadRecord(s: string): (r: Option<(seq<string>, string)>)
    ensures r.Some? ==> |r.value.1| <= |s| && (r.value.1 == "" || r.value.1[0] == '\n')
    decreases |s|
  {
    match ReadField(s)
    case None => None
    case Some((field, rest)) =>
      if rest == "" || rest[0] == '\n' then Some(([field], rest))
      else if rest[0] != ',' then None
      else
        match ReadRecord(rest[1..])
        case None => None
        case Some((fields, after)) => Some(([field] + fields, after))
  }

  /** The whole text: newlines separate records, also a final one. */
  function ReadCsv(s: string): Option<seq<seq<string>>>
    decreases |s|
  {
    match ReadRecord(s)
    case None => None
    case Some((fields, rest)) =>
      if rest == "" then Some([fields])
      else
        match ReadCsv(rest[1..])
        case None => None
        case Some(records) => Some([fields] + records)
  }

  // ---------------------------------------------------------------- the reader undoes the printers

  predicate Ends(rest: string) {
    rest == "" || rest[0] == ',' || rest[0] == '\n'
  }

  lemma {:induction false} ReadPlainBack(s: string, rest: string)
    requires Plain(s) && Ends(rest)
    ensures ReadPlain(s + rest) == Some((s, rest))
  {
    if s == "" {
      assert s + rest == rest;
    } else {
      assert (s + rest)[1..] == s[1..] + rest;
      ReadPlainBack(s[1..], rest);
      assert [s[0]] + s[1..] == s;
    }
  }

  lemma {:induction false} ReadQuotedBack(s: string, rest: string)
    requires Ends(rest)
    ensures ReadQuoted(DoubleQuotes(s) + "\"" + rest) == Some((s, rest))
  {
    var t := DoubleQuotes(s) + "\"" + rest;
    if s == "" {
      assert t == "\"" + rest && t[1..] == rest;
    } else {
      var tail := DoubleQuotes(s[1..]) + "\"" + rest;
      ReadQuotedBack(s[1..], rest);
      if s[0] == '"' {
        assert DoubleQuotes(s) == "\"\"" + DoubleQuotes(s[1..]);
        assert t[0] == '"' && t[1] == '"' && t[2..] == tail;
        assert "\"" + s[1..] == s;
      } else {
        assert DoubleQuotes(s) == [s[0]] + DoubleQuotes(s[1..]);
        assert t[0] == s[0] && t[1..] == tail;
        assert [s[0]] + s[1..] == s;
      }
    }
  }

  lemma ReadFieldBack(s: string, rest: string)
    requires Ends(rest)
    ensures ReadField(Quote(s) + rest) == Some((s, rest))
  {
    hide ReadPlain, ReadQuoted, DoubleQuotes;
    var t := Quote(s) + rest;
    if Plain(s) {
      ReadPlainBack(s, rest);
      assert t != "" ==> t[0] != '"';
    } else {
      ReadQuotedBack(s, rest);
      assert t[0] == '"' && t[1..] == DoubleQuotes(s) + "\"" + rest;
    }
  }

  function QuoteAll(fields: seq<string>): (r: seq<string>)
    ensures |r| == |fields|
    ensures forall i :: 0 <= i < |fields| ==> r[i] == Quote(fields[i])
  {
    seq(|fields|, i requires 0 <= i < |fields| => Quote(fields[i]))
  }

  lemma JoinQuoted(fields: seq<string>)
    requires |fields| > 1
    ensures Join(QuoteAll(fields), ',') == Quote(fields[0]) + "," + Join(QuoteAll(fields[1..]), ',')
  {
    assert QuoteAll(fields)[1..] == QuoteAll(fields[1..]);
  }

  lemma {:induction false} ReadRecordBack(fields: seq<string>, rest: string)
    requires fields != [] && (rest == "" || rest[0] == '\n')
    ensures ReadRecord(Join(QuoteAll(fields), ',') + rest) == Some((fields, rest))
    decreases |fields|
  {
    hide Quote, ReadField;
    var t := Join(QuoteAll(fields), ',') + rest;
    if |fields| == 1 {
      assert t == Quote(fields[0]) + rest && [fields[0]] == fields;
      ReadFieldBack(fields[0], rest);
    } else {
      var others := Join(QuoteAll(fields[1..]), ',') + rest;
      JoinQuoted(fields);
      assert t == Quote(fields[0]) + ("," + others);
      ReadFieldBack(fields[0], "," + others);
      assert ("," + others)[1..] == others;
      ReadRecordBack(fields[1..], rest);
      assert [fields[0]] + fields[1..] == fields;
    }
  }

  function Lines(table: seq<seq<string>>): (r: seq<string>)
    ensures |r| == |table|
    ensures forall i :: 0 <= i < |table| ==> r[i] == Join(QuoteAll(table[i]), ',')
  {
    seq(|table|, i requires 0 <= i < |table| => Join(QuoteAll(table[i]), ','))
  }

  lemma JoinLines(table: seq<seq<string>>)
    requires table != []
    ensures |table| == 1 ==> Join(Lines(table), '\n') == Join(QuoteAll(table[0]), ',') + ""
    ensures |table| > 1 ==>
      Join(Lines(table), '\n') == Join(QuoteAll(table[0]), ',') + ("\n" + Join(Lines(table[1..]), '\n'))
  {
    if |table| > 1 { assert Lines(table)[1..] == Lines(table[1..]); }
  }

  lemma ReadLine(line: string, others: string, fields: seq<string>, records: seq<seq<string>>)
    requires ReadRecord(line + ("\n" + others)) == Some((fields, "\n" + others))
    requires ReadCsv(others) == Some(records)
    ensures ReadCsv(line + ("\n" + others)) == Some([fields] + records)
  {
    assert ("\n" + others)[1..] == others;
  }

  lemma {:induction false} ReadTableBack(table: seq<seq<string>>)
    requires table != [] && forall i :: 0 <= i < |table| ==> table[i] != []
    ensures ReadCsv(Join(Lines(table), '\n')) == Some(table)
    decreases |table|
  {
    hide QuoteAll, Join, Lines, ReadRecord, ReadCsv;
    var first := Join(QuoteAll(table[0]), ',');
    JoinLines(table);
    if |table| == 1 {
      ReadRecordBack(table[0], "");
      ReadLast(first + "", table[0]);
      assert [table[0]] == table;
    } else {
      var others := Join(Lines(table[1..]), '\n');
      ReadRecordBack(table[0], "\n" + others);
      ReadTableBack(table[1..]);
      ReadLine(first, others, table[0], table[1..]);
      assert [table[0]] + table[1..] == table;
    }
  }

  lemma ReadLast(t: string, fields: seq<string>)
    requires ReadRecord(t) == Some((fields, ""))
    ensures ReadCsv(t) == Some([fields])
  {
  }

  /** The cells as text: what a reader can recover (null and the empty text print alike). */
  function Values(cells: seq<Cell>): (r: seq<string>)
    ensures |r| == |cells|
  {
    seq(|cells|, i requires 0 <= i < |cells| => ValueOf(cells[i]))
  }

  function Table(header: seq<string>, rows: seq<seq<Cell>>): (r: seq<seq<string>>)
    ensures |r| == |rows| + 1
  {
    [header] + seq(|rows|, i requires 0 <= i < |rows| => Values(rows[i]))
  }

  /** The header is never quoted, so its names must need no quoting; and there must be a column. */
  ghost predicate GoodHeader(header: seq<string>) {
    header != [] && forall i :: 0 <= i < |header| ==> Plain(header[i])
  }

  ghost predicate Rectangular(header: seq<string>, rows: seq<seq<Cell>>) {
    forall i :: 0 <= i < |rows| ==> |rows[i]| == |header|
  }

  lemma PrintedRow(cells: seq<Cell>)
    ensures PrintRow(cells) == Join(QuoteAll(Values(cells)), ',')
  {
    assert seq(|cells|, i requires 0 <= i < |cells| => PrintCell(cells[i])) == QuoteAll(Values(cells));
  }

  lemma PrintedLines(header: seq<string>, rows: seq<seq<Cell>>)
    requires GoodHeader(header)
    ensures PrintLines(header, rows) == Lines(Table(header, rows))
  {
    var table := Table(header, rows);
    assert QuoteAll(header) == header;
    assert Lines(table)[0] == Join(header, ',');
    forall k | 1 <= k <= |rows|
      ensures PrintLines(header, rows)[k] == Lines(table)[k]
    {
      PrintedRow(rows[k - 1]);
      assert table[k] == Values(rows[k - 1]);
    }
  }

  lemma ReadsBack(header: seq<string>, rows: seq<seq<Cell>>)
    requires GoodHeader(header) && Rectangular(header, rows)
    ensures ReadCsv(ToCsv(header, rows)) == Some(Table(header, rows))
  {
    hide ReadCsv, Join, Lines, PrintLines;
    PrintedLines(header, rows);
    ReadTableBack(Table(header, rows));
  }

  /** Every cell comes back as its text, and an absent value as the empty one. */
  lemma CellReadsBack(header: seq<string>, rows: seq<seq<Cell>>, i: nat, k: nat)
    requires GoodHeader(header) && Rectangular(header, rows) && i < |rows| && k < |header|
    ensures var table := ReadCsv(ToCsv(header, rows));
      && table.Some? && |table.value| == |rows| + 1 && table.value[0] == header
      && |table.value[i + 1]| == |header|
      && table.value[i + 1][k] == match rows[i][k] case Null => "" case Text(t) => t
  {
    hide ReadCsv, ToCsv;
    ReadsBack(header, rows);
  }

  // ---------------------------------------------------------------- and only under that condition

  function LeadingQuotes(s: string): nat {
    if s == "" || s[0] != '"' then 0 else 1 + LeadingQuotes(s[1..])
  }

  lemma {:induction false} QuotedStartsLower(s: string)
    requires ReadQuoted(s).Some?
    ensures LeadingQuotes(ReadQuoted(s).value.0) <= LeadingQuotes(s)
  {
    if s[0] == '"' {
      if |s| > 1 && s[1] == '"' {
        QuotedStartsLower(s[2..]);
        var field := ReadQuoted(s[2..]).value.0;
        assert ("\"" + field)[1..] == field;
        assert s[1..][1..] == s[2..];
      }
    }
  }

  lemma {:induction false} LeadingQuotesStop(s: string, rest: string)
    requires Ends(rest)
    ensures LeadingQuotes(s + rest) == LeadingQuotes(s)
  {
    if s == "" {
      assert s + rest == rest;
    } else {
      assert (s + rest)[1..] == s[1..] + rest;
      LeadingQuotesStop(s[1..], rest);
    }
  }

  /** Printed as it stands, a name is read back only if it is plain. */
  lemma OnlyPlainReadsBack(name: string, rest: string)
    requires Ends(rest)
    requires ReadField(name + rest).Some? && ReadField(name + rest).value.0 == name
    ensures Plain(name) && ReadField(name + rest).value.1 == rest
  {
    var t := name + rest;
    if t != "" && t[0] == '"' {
      QuotedStartsLower(t[1..]);
      LeadingQuotesStop(name, rest);
      assert false;
    } else {
      var (field, after) := ReadPlain(t).value;
      assert |after| == |rest|;
      assert after == t[|name|..] == rest;
    }
  }

  lemma {:induction false} HeaderMustBePlain(header: seq<string>, rest: string)
    requires header != [] && (rest == "" || rest[0] == '\n')
    requires ReadRecord(Join(header, ',') + rest).Some?
    requires ReadRecord(Join(header, ',') + rest).value.0 == header
    ensures forall i :: 0 <= i < |header| ==> Plain(header[i])
    decreases |header|
  {
    hide ReadField;
    var t := Join(header, ',') + rest;
    var (field, after) := ReadField(t).value;
    assert field == header[0];
    if |header| == 1 {
      OnlyPlainReadsBack(header[0], rest);
    } else {
      var others := Join(header[1..], ',') + rest;
      assert t == header[0] + ("," + others);
      OnlyPlainReadsBack(header[0], "," + others);
      assert after[1..] == others;
      assert header[1..] == ReadRecord(others).value.0;
      HeaderMustBePlain(header[1..], rest);
    }
  }

  /** The round trip, with its exact condition: a reader recovers every cell of every record, each of
      the header's width, if and only if there is a column and no column name needs quoting. */
  lemma RoundTrip(header: seq<string>, rows: seq<seq<Cell>>)
    requires Rectangular(header, rows)
    ensures ReadCsv(ToCsv(header, rows)) == Some(Table(header, rows)) <==> GoodHeader(header)
  {
    if GoodHeader(header) {
      ReadsBack(header, rows);
    } else if ReadCsv(ToCsv(header, rows)) == Some(Table(header, rows)) {
      var t := ToCsv(header, rows);
      var lines := PrintLines(header, rows);
      var rest := if rows == [] then "" else "\n" + Join(lines[1..], '\n');
      assert t == Join(header, ',') + rest;
      assert ReadCsv(t).value[0] == header;
      if header != [] { HeaderMustBePlain(header, rest); }
      assert false;
    }
  }

  /** For the record printer: records with the same property names as the first, in any order. */
  lemma RecordsRoundTrip(rows: seq<Record>)
    requires rows != [] && GoodHeader(Names(rows[0]))
    ensures ReadCsv(RecordsToCsv(rows)) == Some(Table(Names(rows[0]), PickAll(rows, Names(rows[0]))))
  {
    ReadsBack(Names(rows[0]), PickAll(rows, Names(rows[0])));
  }

  lemma {:induction false} LookupIs(r: Record, h: string, j: nat)
    requires j < |r| && r[j].name == h && forall m :: 0 <= m < j ==> r[m].name != h
    ensures Lookup(r, h) == r[j].cell
  {
    if j > 0 { LookupIs(r[1..], h, j - 1); }
  }

  lemma {:induction false} LookupMisses(r: Record, h: string)
    requires forall m :: 0 <= m < |r| ==> r[m].name != h
    ensures Lookup(r, h) == Null
  {
    if r != [] { LookupMisses(r[1..], h); }
  }

  /** In the column of a property of the first record, every record has its own value of that property,
      wherever it stands in the record, and the empty text if it has none. */
  lemma PropertyReadsBack(rows: seq<Record>, i: nat, k: nat)
    requires i < |rows| && k < |rows[0]| && GoodHeader(Names(rows[0]))
    ensures var table, h := ReadCsv(RecordsToCsv(rows)), rows[0][k].name;
      && table.Some? && |table.value| == |rows| + 1 && |table.value[i + 1]| == |rows[0]|
      && (forall j :: 0 <= j < |rows[i]| && rows[i][j].name == h && (forall m :: 0 <= m < j ==> rows[i][m].name != h)
            ==> table.value[i + 1][k] == match rows[i][j].cell case Null => "" case Text(t) => t)
      && ((forall j :: 0 <= j < |rows[i]| ==> rows[i][j].name != h) ==> table.value[i + 1][k] == "")
  {
    hide ReadCsv, ToCsv, Lookup;
    var header, h := Names(rows[0]), rows[0][k].name;
    CellReadsBack(header, PickAll(rows, header), i, k);
    assert PickAll(rows, header)[i][k] == Lookup(rows[i], h);
    forall j | 0 <= j < |rows[i]| && rows[i][j].name == h && forall m :: 0 <= m < j ==> rows[i][m].name != h
      ensures Lookup(rows[i], h) == rows[i][j].cell
    {
      LookupIs(rows[i], h, j);
    }
    if forall j :: 0 <= j < |rows[i]| ==> rows[i][j].name != h { LookupMisses(rows[i], h); }
  }
}
