/** The downloadable CSV template, and what a reader following section 2 of RFC 4180 (with LF line
    ends) makes of it. */
module CsvTemplate {
  import opened Options

  datatype Template = Template(keys: seq<string>, exampleRows: seq<map<string, string>>)

  /* ----- Printing ----- */

  // The characters that make the printer quote a value.
  predicate Special(c: char) {
    c == '"' || c == ',' || c == '\n'
  }

  predicate NeedsQuotes(value: string) {
    exists i :: 0 <= i < |value| && Special(value[i])
  }

  function DoubleQuotes(value: string): string {
    if value == "" then ""
    else (if value[0] == '"' then "\"\"" else [value[0]]) + DoubleQuotes(value[1..])
  }

  function Escape(value: string): string {
    if NeedsQuotes(value) then "\"" + DoubleQuotes(value) + "\"" else value
  }

  function Join(parts: seq<string>, separator: char): string {
    if parts == [] then ""
    else if |parts| == 1 then parts[0]
    else parts[0] + [separator] + Join(parts[1..], separator)
  }

  function Escaped(values: seq<string>): seq<string> {
    seq(|values|, i requires 0 <= i < |values| => Escape(values[i]))
  }

  function Cell(row: map<string, string>, key: string): string {
    if key in row then row[key] else ""
  }

  function Cells(row: map<string, string>, keys: seq<string>): seq<string> {
    seq(|keys|, i requires 0 <= i < |keys| => Cell(row, keys[i]))
  }

  function BuildCsvTemplateContent(t: Template): string {
    var lines := [Join(t.keys, ',')] +
      seq(|t.exampleRows|, i requires 0 <= i < |t.exampleRows| => Join(Escaped(Cells(t.exampleRows[i], t.keys)), ','));
    Join(lines, '\n') + "\n"
  }

  /* ----- Reading ----- */

  // At the start of a field, inside a bare one, inside a quoted one, or just after a quote in it.
  datatype Mode = Start | Bare | Quoted | Quote

  datatype Reader = Reader(mode: Mode, field: string, record: seq<string>, table: seq<seq<string>>)

  function EndField(r: Reader): Reader {
    Reader(Start, "", r.record + [r.field], r.table)
  }

  function EndRecord(r: Reader): Reader {
    Reader(Start, "", [], r.table + [r.record + [r.field]])
  }

  function Read(r: Reader, c: char): Option<Reader> {
    match r.mode
    case Quoted => Some(if c == '"' then r.(mode := Quote) else r.(field := r.field + [c]))
    case Quote =>
      if c == '"' then Some(r.(mode := Quoted, field := r.field + [c]))
      else if c == ',' then Some(EndField(r))
      else if c == '\n' then Some(EndRecord(r))
      else None
    case Start =>
      if c == '"' then Some(r.(mode := Quoted))
      else if c == ',' then Some(EndField(r))
      else if c == '\n' then Some(EndRecord(r))
      else if c == '\r' then None
      else Some(r.(mode := Bare, field := [c]))
    case Bare =>
      if c == ',' then Some(EndField(r))
      else if c == '\n' then Some(EndRecord(r))
      else if c == '"' || c == '\r' then None
      else Some(r.(field := r.field + [c]))
  }

  function ReadAll(r: Reader, text: string): Option<Reader>
    decreases |text|
  {
    if text == "" then Some(r)
    else
      match Read(r, text[0])
      case None => None
      case Some(next) => ReadAll(next, text[1..])
  }

  // The last record need not end in a line break.
  function Parse(text: string): Option<seq<seq<string>>> {
    match ReadAll(Reader(Start, "", [], []), text)
    case None => None
    case Some(r) =>
      if r.mode.Quoted? then None
      else if r.mode.Start? && r.record == [] then Some(r.table)
      else Some(EndRecord(r).table)
  }

  /* ----- Round trip ----- */

  predicate Plain(s: string) {
    forall i :: 0 <= i < |s| ==> !Special(s[i]) && s[i] != '\r'
  }

  // A value the reader gets back: a carriage return has to come with a reason to quote.
  predicate Readable(value: string) {
    '\r' in value ==> NeedsQuotes(value)
  }

  predicate ReadableRecord(record: seq<string>) {
    forall v :: v in record ==> Readable(v)
  }

  lemma {:induction false} ReadAllConcat(r: Reader, a: string, b: string)
    ensures ReadAll(r, a + b) == match ReadAll(r, a) case None => None case Some(next) => ReadAll(next, b)
    decreases |a|
  {
    if a == "" {
      assert a + b == b;
    } else {
      assert (a + b)[1..] == a[1..] + b;
      match Read(r, a[0])
      case None =>
      case Some(next) => ReadAllConcat(next, a[1..], b);
    }
  }

  lemma ReadOne(r: Reader, c: char)
    ensures ReadAll(r, [c]) == Read(r, c)
  {
    assert [c][1..] == "";
  }

  lemma {:induction false} ReadBare(r: Reader, s: string)
    requires r.mode.Bare? && Plain(s)
    ensures ReadAll(r, s) == Some(r.(field := r.field + s))
    decreases |s|
  {
    if s == "" {
      assert r.field + s == r.field;
    } else {
      ReadBare(r.(field := r.field + [s[0]]), s[1..]);
      assert r.field + s == r.field + [s[0]] + s[1..];
    }
  }

  lemma {:induction false} ReadQuoted(r: Reader, s: string)
    requires r.mode.Quoted?
    ensures ReadAll(r, DoubleQuotes(s)) == Some(r.(field := r.field + s))
    decreases |s|
  {
    if s == "" {
      assert r.field + s == r.field;
    } else {
      var next := r.(field := r.field + [s[0]]);
      hide Read, ReadAll, DoubleQuotes;
      ReadQuotedChar(r, s);
      ReadQuoted(next, s[1..]);
      assert r.field + s == r.field + [s[0]] + s[1..];
    }
  }

  // One character of a quoted value, which the printer may have doubled.
  lemma ReadQuotedChar(r: Reader, s: string)
    requires r.mode.Quoted? && s != ""
    ensures ReadAll(r, DoubleQuotes(s)) == ReadAll(r.(field := r.field + [s[0]]), DoubleQuotes(s[1..]))
  {
    var rest := DoubleQuotes(s[1..]);
    DoubledFirst(s);
    hide DoubleQuotes, ReadAll;
    if s[0] == '"' {
      ReadCons(r, '"', ['"'] + rest);
      ReadCons(r.(mode := Quote), '"', rest);
    } else {
      ReadCons(r, s[0], rest);
    }
  }

  lemma DoubledFirst(s: string)
    requires s != ""
    ensures DoubleQuotes(s) ==
      if s[0] == '"' then ['"'] + (['"'] + DoubleQuotes(s[1..])) else [s[0]] + DoubleQuotes(s[1..])
  {
  }

  lemma ReadCons(r: Reader, c: char, rest: string)
    ensures ReadAll(r, [c] + rest) == match Read(r, c) case None => None case Some(next) => ReadAll(next, rest)
  {
    assert ([c] + rest)[1..] == rest;
  }

  // A carriage return in a bare field stops the reader.
  lemma {:induction false} ReadBadBare(r: Reader, s: string)
    requires r.mode.Bare? || r.mode.Start?
    requires '\r' in s && !NeedsQuotes(s)
    ensures ReadAll(r, s).None?
    decreases |s|
  {
    assert !Special(s[0]);
    if s[0] != '\r' {
      assert s == [s[0]] + s[1..];
      assert forall i :: 0 <= i < |s| - 1 ==> s[1..][i] == s[i + 1];
      ReadBadBare(Read(r, s[0]).value, s[1..]);
    }
  }

  // Reading one printed value, up to the comma or line break behind it.
  lemma ReadEscaped(r: Reader, value: string)
    requires r.mode.Start? && r.field == "" && Readable(value)
    ensures ReadAll(r, Escape(value)).Some?
    ensures
      var next := ReadAll(r, Escape(value)).value;
      next.field == value && next.record == r.record && next.table == r.table && !next.mode.Quoted?
  {
    if NeedsQuotes(value) {
      var body := DoubleQuotes(value);
      assert ("\"" + body + "\"")[1..] == body + "\"";
      ReadAllConcat(r.(mode := Quoted), body, "\"");
      ReadQuoted(r.(mode := Quoted), value);
      ReadOne(r.(mode := Quoted, field := value), '"');
      assert "" + value == value;
    } else if value != "" {
      ReadBare(r.(mode := Bare, field := [value[0]]), value[1..]);
      assert [value[0]] + value[1..] == value;
    }
  }

  lemma {:induction false} ReadRecord(r: Reader, values: seq<string>)
    requires r.mode.Start? && r.field == "" && values != [] && ReadableRecord(values)
    ensures ReadAll(r, Join(Escaped(values), ',') + "\n") == Some(Reader(Start, "", [], r.table + [r.record + values]))
    decreases |values|
  {
    hide Read, ReadAll, Escape, Join;
    ReadEscaped(r, values[0]);
    if |values| == 1 {
      ReadLastValue(r, values[0]);
      assert values == [values[0]];
    } else {
      ReadValue(r, values);
      ReadRecord(Reader(Start, "", r.record + [values[0]], r.table), values[1..]);
      assert r.record + [values[0]] + values[1..] == r.record + values;
    }
  }

  lemma ReadLastValue(r: Reader, value: string)
    requires r.mode.Start? && r.field == "" && Readable(value)
    ensures ReadAll(r, Join(Escaped([value]), ',') + "\n") ==
      Some(Reader(Start, "", [], r.table + [r.record + [value]]))
  {
    ReadEscaped(r, value);
    ReadAllConcat(r, Escape(value), "\n");
    ReadOne(ReadAll(r, Escape(value)).value, '\n');
  }

  // A printed value with the comma behind it.
  lemma ReadValue(r: Reader, values: seq<string>)
    requires r.mode.Start? && r.field == "" && |values| > 1 && Readable(values[0])
    ensures ReadAll(r, Join(Escaped(values), ',') + "\n") ==
      ReadAll(Reader(Start, "", r.record + [values[0]], r.table), Join(Escaped(values[1..]), ',') + "\n")
  {
    var first, rest := Escape(values[0]), Join(Escaped(values[1..]), ',') + "\n";
    ReadEscaped(r, values[0]);
    var next := ReadAll(r, first).value;
    assert Escaped(values)[1..] == Escaped(values[1..]);
    assert Join(Escaped(values), ',') + "\n" == first + ("," + rest);
    hide DoubleQuotes, NeedsQuotes, Escaped, Join;
    ReadAllConcat(r, first, "," + rest);
    ReadAllConcat(next, ",", rest);
    ReadOne(next, ',');
  }

  lemma {:induction false} BadRecord(r: Reader, values: seq<string>, end: string)
    requires r.mode.Start? && r.field == ""
    requires !ReadableRecord(values)
    ensures ReadAll(r, Join(Escaped(values), ',') + end).None?
    decreases |values|
  {
    var printed := Escaped(values);
    var first := Escape(values[0]);
    var rest := if |values| == 1 then end else "," + (Join(printed[1..], ',') + end);
    assert Join(printed, ',') + end == first + rest;
    ReadAllConcat(r, first, rest);
    if !Readable(values[0]) {
      ReadBadBare(r, values[0]);
    } else {
      assert forall v :: v in values ==> v == values[0] || v in values[1..];
      ReadEscaped(r, values[0]);
      var next := ReadAll(r, first).value;
      assert printed[1..] == Escaped(values[1..]);
      ReadAllConcat(next, ",", Join(printed[1..], ',') + end);
      ReadOne(next, ',');
      BadRecord(EndField(next), values[1..], end);
    }
  }

  function Lines(records: seq<seq<string>>): seq<string> {
    seq(|records|, i requires 0 <= i < |records| => Join(Escaped(records[i]), ','))
  }

  lemma LinesSplit(records: seq<seq<string>>)
    requires records != []
    ensures Join(Lines(records), '\n') + "\n" ==
      Join(Escaped(records[0]), ',') + "\n" + if |records| == 1 then "" else Join(Lines(records[1..]), '\n') + "\n"
  {
    assert Lines(records)[1..] == Lines(records[1..]);
  }

  function Printed(records: seq<seq<string>>): string {
    Join(Lines(records), '\n') + "\n"
  }

  // The reader takes off one readable line at a time.
  lemma ReadLine(r: Reader, records: seq<seq<string>>)
    requires r == Reader(Start, "", [], r.table) && records != []
    requires records[0] != [] && ReadableRecord(records[0])
    ensures ReadAll(r, Printed(records)) ==
      ReadAll(Reader(Start, "", [], r.table + [records[0]]), if |records| == 1 then "" else Printed(records[1..]))
  {
    LinesSplit(records);
    ReadAllConcat(r, Join(Escaped(records[0]), ',') + "\n", if |records| == 1 then "" else Printed(records[1..]));
    ReadRecord(r, records[0]);
    assert [] + records[0] == records[0];
  }

  // A file of printed records reads back as those records.
  lemma {:induction false} ReadRecords(r: Reader, records: seq<seq<string>>)
    requires r == Reader(Start, "", [], r.table) && records != []
    requires forall j: nat :: j < |records| ==> records[j] != [] && ReadableRecord(records[j])
    ensures ReadAll(r, Printed(records)) == Some(Reader(Start, "", [], r.table + records))
    decreases |records|
  {
    hide Read, Printed, ReadableRecord;
    ReadLine(r, records);
    if |records| == 1 {
      assert r.table + records == r.table + [records[0]];
    } else {
      hide ReadAll;
      ReadRecords(Reader(Start, "", [], r.table + [records[0]]), records[1..]);
      assert r.table + [records[0]] + records[1..] == r.table + records;
    }
  }

  lemma BadLine(r: Reader, records: seq<seq<string>>)
    requires r == Reader(Start, "", [], r.table) && records != []
    requires !ReadableRecord(records[0])
    ensures ReadAll(r, Printed(records)).None?
  {
    hide Read, ReadAll, Escape, DoubleQuotes;
    var rest := if |records| == 1 then "" else Printed(records[1..]);
    LinesSplit(records);
    BadRecord(r, records[0], "\n" + rest);
    assert Join(Escaped(records[0]), ',') + ("\n" + rest) == Join(Escaped(records[0]), ',') + "\n" + rest;
  }

  // A file with an unreadable value does not read at all.
  lemma {:induction false} BadRecords(r: Reader, records: seq<seq<string>>, i: nat)
    requires r == Reader(Start, "", [], r.table) && i < |records|
    requires forall j: nat :: j < |records| ==> records[j] != []
    requires !ReadableRecord(records[i])
    ensures ReadAll(r, Printed(records)).None?
    decreases i
  {
    if !ReadableRecord(records[0]) {
      BadLine(r, records);
    } else {
      ReadLine(r, records);
      BadRecords(Reader(Start, "", [], r.table + [records[0]]), records[1..], i - 1);
    }
  }

  // The records a template stands for: its keys, then each example row's cells in their order.
  function Records(t: Template): seq<seq<string>> {
    [t.keys] + seq(|t.exampleRows|, i requires 0 <= i < |t.exampleRows| => Cells(t.exampleRows[i], t.keys))
  }

  lemma BuildPrintsRecords(t: Template)
    requires forall k :: k in t.keys ==> Plain(k)
    ensures BuildCsvTemplateContent(t) == Printed(Records(t))
  {
    forall i | 0 <= i < |t.keys| ensures Escape(t.keys[i]) == t.keys[i] {
      assert Plain(t.keys[i]);
    }
    assert Escaped(t.keys) == t.keys;
    var rows := seq(|t.exampleRows|, i requires 0 <= i < |t.exampleRows| =>
      Join(Escaped(Cells(t.exampleRows[i], t.keys)), ','));
    assert Lines(Records(t)) == [Join(t.keys, ',')] + rows;
  }

  // Every cell with a carriage return has a reason to be quoted.
  ghost predicate CellsReadable(t: Template) {
    forall row, k :: row in t.exampleRows && k in t.keys ==> Readable(Cell(row, k))
  }

  // Every record is readable exactly when every cell is.
  lemma ReadableCells(t: Template)
    requires t.keys != [] && forall k :: k in t.keys ==> Plain(k)
    ensures forall j: nat :: j < |Records(t)| ==> Records(t)[j] != []
    ensures CellsReadable(t) <==>
      forall j: nat :: j < |Records(t)| ==> ReadableRecord(Records(t)[j])
  {
    var records := Records(t);
    forall v | v in t.keys ensures Readable(v) { assert Plain(v); }
    forall row, k | row in t.exampleRows && k in t.keys && !Readable(Cell(row, k))
      ensures exists j: nat :: j < |records| && !ReadableRecord(records[j])
    {
      var i :| 0 <= i < |t.exampleRows| && t.exampleRows[i] == row;
      var j :| 0 <= j < |t.keys| && t.keys[j] == k;
      assert records[i + 1] == Cells(row, t.keys) && Cells(row, t.keys)[j] == Cell(row, k);
      assert !ReadableRecord(records[i + 1]);
    }
  }

  // Round trip: for plain header keys, the printed template reads back as its records if and only if
  // every cell with a carriage return also has a quote, a comma or a line feed. Cells may hold
  // quotes, commas and line feeds freely; missing cells read as empty.
  lemma TemplateRoundTrip(t: Template)
    requires t.keys != [] && forall k :: k in t.keys ==> Plain(k)
    ensures Parse(BuildCsvTemplateContent(t)) == if CellsReadable(t) then Some(Records(t)) else None
  {
    var records := Records(t);
    var r := Reader(Start, "", [], []);
    BuildPrintsRecords(t);
    ReadableCells(t);
    if i: nat :| i < |records| && !ReadableRecord(records[i]) {
      BadRecords(r, records, i);
    } else {
      ReadRecords(r, records);
      assert [] + records == records;
    }
  }

  // A record read under its header.
  function Labelled(keys: seq<string>, record: seq<string>): map<string, string>
    requires |keys| == |record|
    decreases |keys|
  {
    if keys == [] then map[]
      else Labelled(keys[..|keys| - 1], record[..|keys| - 1])[keys[|keys| - 1] := record[|keys| - 1]]
  }

  // Under the header the cells are the example row again, whatever the order of the columns (even
  // with a column listed twice).
  lemma {:induction false} LabelledCells(keys: seq<string>, row: map<string, string>)
    ensures Labelled(keys, Cells(row, keys)) == map k | k in keys :: Cell(row, k)
    decreases |keys|
  {
    if keys != [] {
      var n := |keys| - 1;
      LabelledCells(keys[..n], row);
      assert Cells(row, keys)[..n] == Cells(row, keys[..n]);
      assert forall k :: k in keys <==> k in keys[..n] || k == keys[n];
    }
  }

  // A table read under its first record; every record has to have as many fields as that one.
  function Labels(table: seq<seq<string>>): Option<seq<map<string, string>>> {
    if table == [] || exists i :: 0 <= i < |table| && |table[i]| != |table[0]| then None
    else Some(seq(|table| - 1, i requires 0 <= i < |table| - 1 => Labelled(table[0], table[i + 1])))
  }

  function ReadTemplate(text: string): Option<seq<map<string, string>>> {
    if Parse(text).Some? then Labels(Parse(text).value) else None
  }

  // An example row as the file shows it: every column of the header, the missing ones empty.
  function Shown(row: map<string, string>, keys: seq<string>): map<string, string> {
    map k | k in keys :: Cell(row, k)
  }

  function ShownRows(t: Template): seq<map<string, string>> {
    seq(|t.exampleRows|, i requires 0 <= i < |t.exampleRows| => Shown(t.exampleRows[i], t.keys))
  }

  lemma LabelsAre(table: seq<seq<string>>, rows: seq<map<string, string>>)
    requires |table| == |rows| + 1 && forall i :: 0 <= i < |table| ==> |table[i]| == |table[0]|
    requires forall i :: 0 <= i < |rows| ==> Labelled(table[0], table[i + 1]) == rows[i]
    ensures Labels(table) == Some(rows)
  {
    assert Labels(table).value == rows;
  }

  lemma RecordsLabelled(t: Template)
    ensures Labels(Records(t)) == Some(ShownRows(t))
  {
    var records := Records(t);
    forall i | 0 <= i < |t.exampleRows|
      ensures |records[i + 1]| == |t.keys| && Labelled(t.keys, records[i + 1]) == Shown(t.exampleRows[i], t.keys) {
      LabelledCells(t.keys, t.exampleRows[i]);
    }
    forall i | 0 <= i < |records| ensures |records[i]| == |t.keys| {
      assert i > 0 ==> |records[i - 1 + 1]| == |t.keys|;
    }
    LabelsAre(records, ShownRows(t));
  }

  // Reading the file under its header gives the example rows if and only if every cell with a carriage
  // return has a reason to be quoted; otherwise it gives nothing.
  lemma TemplateGivesExampleRows(t: Template)
    requires t.keys != [] && forall k :: k in t.keys ==> Plain(k)
    ensures ReadTemplate(BuildCsvTemplateContent(t)) == if CellsReadable(t) then Some(ShownRows(t)) else None
  {
    TemplateRoundTrip(t);
    RecordsLabelled(t);
    hide BuildCsvTemplateContent, Parse, Labels, CellsReadable, Records, ShownRows;
  }
}
