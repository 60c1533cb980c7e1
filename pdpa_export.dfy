/** The CSV form of the right-to-portability export: the exported record
    is flattened into `key,value` rows, nested keys joined with ".", and
    every cell quoted with its quotes doubled. */
module PdpaExport {
  import opened Common

  /** A JSON-like value as the export sees it. `JNull` stands for both `null` and `undefined`;
      a date carries its ISO form and the text `String(date)` gives for it. */
  datatype Json =
    | JNull
    | JBool(b: bool)
    | JNum(n: int)
    | JStr(s: string)
    | JDate(iso: string, text: string)
    | JArr(items: seq<Json>)
    | JObj(fields: seq<(string, Json)>)

  // ---------------------------------------------------------------
  // JSON.stringify and String()
  // ---------------------------------------------------------------

  /** A string as `JSON.stringify` writes it: quoted, with `"`, `\` and the control characters
      escaped. */
  function Quote(s: string): string {
    "\"" + JsonEscape(s) + "\""
  }

  /** A lower-case hexadecimal digit. */
  function HexDigit(d: nat): (c: char)
    requires d < 16
    ensures ' ' < c
  {
    if d < 10 then DigitChar(d) else ('a' as int + (d - 10)) as char
  }

  /** One character as `JSON.stringify` writes it inside a string: `"` and `\` are preceded by a
      backslash; backspace, tab, line feed, form feed and carriage return get their short escapes;
      any other character below U+0020 is written `\u00` and two hexadecimal digits. */
  function EscapeChar(c: char): (e: string)
    ensures |e| >= 1
    ensures e[0] == '\\' <==> (c == '"' || c == '\\' || c < ' ')
    ensures e[0] != '\\' ==> e == [c]
    ensures forall i :: 0 <= i < |e| ==> ' ' <= e[i]
  {
    if c == '"' then "\\\""
    else if c == '\\' then "\\\\"
    else if c == '\U{8}' then "\\b"
    else if c == '\t' then "\\t"
    else if c == '\n' then "\\n"
    else if c == '\U{C}' then "\\f"
    else if c == '\r' then "\\r"
    else if c < ' ' then "\\u00" + [HexDigit(c as int / 16), HexDigit(c as int % 16)]
    else [c]
  }

  /** The body of a JSON string: no character below U+0020 is left unescaped. */
  function JsonEscape(s: string): (r: string)
    ensures forall i :: 0 <= i < |r| ==> ' ' <= r[i]
    ensures |s| <= |r|
  {
    if s == [] then ""
    else
      var e, rest := EscapeChar(s[0]), JsonEscape(s[1..]);
      assert forall i :: |e| <= i < |e + rest| ==> (e + rest)[i] == rest[i - |e|];
      e + rest
  }

  /** A text without quotes, backslashes or control characters is written as it is. */
  lemma {:induction false} JsonEscapePlain(s: string)
    requires forall i :: 0 <= i < |s| ==> ' ' <= s[i] && s[i] != '"' && s[i] != '\\'
    ensures JsonEscape(s) == s
  {
    if s != [] {
      JsonEscapePlain(s[1..]);
      assert s == [s[0]] + s[1..];
    }
  }

  /** A line break inside a string is written as the two characters `\n`. */
  lemma LineBreakEscaped(s: string)
    requires s == "a\nb"
    ensures JsonEscape(s) == "a\\nb"
  {
    var t, u := s[1..], s[2..];
    assert s[0] == 'a' && t[0] == '\n' && u == [u[0]] && u[0] == 'b';
    assert JsonEscape(u) == "b";
    assert JsonEscape(t) == "\\n" + JsonEscape(u);
    assert JsonEscape(s) == "a" + JsonEscape(t);
  }

  /** `JSON.stringify`. */
  function Stringify(v: Json): string {
    match v
    case JNull => "null"
    case JBool(b) => if b then "true" else "false"
    case JNum(n) => IntToString(n)
    case JStr(s) => Quote(s)
    case JDate(iso, _) => Quote(iso)
    case JArr(items) => "[" + Join(seq(|items|, i requires 0 <= i < |items| => Stringify(items[i])), ",") + "]"
    case JObj(fields) => "{" + Join(seq(|fields|, i requires 0 <= i < |fields| => Member(v, i)), ",") + "}"
  }

  /** `"key":value` for the `i`th field of a record. */
  function Member(v: Json, i: nat): string
    requires v.JObj? && i < |v.fields|
    decreases v, 0
  {
    assert v.fields[i].1 < v.fields[i];
    Quote(v.fields[i].0) + ":" + Stringify(v.fields[i].1)
  }

  /** `String(v)`: an array joins its elements' texts with "," (a null element gives ""), and any
      other object is "[object Object]". */
  function Text(v: Json): string {
    match v
    case JNull => "null"
    case JBool(b) => if b then "true" else "false"
    case JNum(n) => IntToString(n)
    case JStr(s) => s
    case JDate(_, text) => text
    case JArr(items) =>
      Join(seq(|items|, i requires 0 <= i < |items| => if items[i].JNull? then "" else Text(items[i])), ",")
    case JObj(_) => "[object Object]"
  }

  // ---------------------------------------------------------------
  // flatten
  // ---------------------------------------------------------------

  /** `prefix ? prefix + "." + k : k`. */
  function ChildKey(prefix: string, k: string): string {
    if prefix != "" then prefix + "." + k else k
  }

  /** The cell of a field that is not a nested record: `v instanceof Date ? v.toISOString() :
      String(v ?? '')`. With `arraysAsJson` an array field is JSON-encoded instead. */
  function FieldText(v: Json, arraysAsJson: bool): string {
    match v
    case JNull => ""
    case JDate(iso, _) => iso
    case JArr(_) => if arraysAsJson then Stringify(v) else Text(v)
    case _ => Text(v)
  }

  /** All the rows of a list of row lists, in order. */
  function Flat<T>(parts: seq<seq<T>>): (r: seq<T>)
    ensures forall x :: x in r ==> exists i :: 0 <= i < |parts| && x in parts[i]
  {
    if parts == [] then [] else Flat(parts[..|parts| - 1]) + parts[|parts| - 1]
  }

  lemma {:induction false} InFlat<T>(parts: seq<seq<T>>, i: nat, x: T)
    requires i < |parts| && x in parts[i]
    ensures x in Flat(parts)
  {
    if i < |parts| - 1 {
      InFlat(parts[..|parts| - 1], i, x);
      assert parts[..|parts| - 1][i] == parts[i];
    }
  }

  /** `flatten(obj, prefix)`. With `arraysAsJson` false it is the export as written, where an array
      inside a record reaches the `String(v)` branch; true is the corrected export. */
  function FlattenWith(v: Json, prefix: string, arraysAsJson: bool): seq<(string, string)>
    decreases v, 1
  {
    match v
    case JNull => []
    case JDate(iso, _) => [(prefix, iso)]
    case JArr(_) => [(prefix, Stringify(v))]
    case JObj(fields) =>
      Flat(seq(|fields|, i requires 0 <= i < |fields| => FieldRows(v, i, prefix, arraysAsJson)))
    case _ => [(prefix, Text(v))]
  }

  /** The rows the `i`th field of a record contributes: a nested record is flattened under the
      joined key, anything else is one row. */
  function FieldRows(v: Json, i: nat, prefix: string, arraysAsJson: bool): seq<(string, string)>
    requires v.JObj? && i < |v.fields|
    decreases v, 0
  {
    assert v.fields[i].1 < v.fields[i];
    var key := ChildKey(prefix, v.fields[i].0);
    var child := v.fields[i].1;
    if child.JObj? then FlattenWith(child, key, arraysAsJson) else [(key, FieldText(child, arraysAsJson))]
  }

  /** Every key under a non-empty prefix is the prefix itself or starts with the prefix and ".". */
  lemma {:induction false} KeysUnderPrefix(v: Json, prefix: string, arraysAsJson: bool)
    requires prefix != ""
    ensures forall row :: row in FlattenWith(v, prefix, arraysAsJson) ==>
      row.0 == prefix || StartsWith(row.0, prefix + ".")
    decreases v
  {
    if v.JObj? {
      var parts := seq(|v.fields|, i requires 0 <= i < |v.fields| => FieldRows(v, i, prefix, arraysAsJson));
      forall row | row in FlattenWith(v, prefix, arraysAsJson)
        ensures StartsWith(row.0, prefix + ".")
      {
        var i :| 0 <= i < |parts| && row in parts[i];
        var key := ChildKey(prefix, v.fields[i].0);
        assert StartsWith(key, prefix + ".");
        var child := v.fields[i].1;
        if child.JObj? {
          assert child < v.fields[i];
          KeysUnderPrefix(child, key, arraysAsJson);
          if row.0 != key {
            PrefixOfPrefix(row.0, key + ".", prefix + ".");
          }
        }
      }
    }
  }

  lemma PrefixOfPrefix(s: string, p: string, q: string)
    requires StartsWith(s, p) && StartsWith(p, q)
    ensures StartsWith(s, q)
  {
    assert s[..|q|] == s[..|p|][..|q|];
  }

  // ---------------------------------------------------------------
  // Substrings
  // ---------------------------------------------------------------

  lemma {:induction false} ContainsIndex<T>(s: seq<T>, sub: seq<T>) returns (i: nat)
    requires Contains(s, sub)
    ensures i + |sub| <= |s| && s[i..i + |sub|] == sub
    decreases |s|
  {
    if StartsWith(s, sub) {
      i := 0;
    } else {
      var j := ContainsIndex(s[1..], sub);
      i := j + 1;
      assert s[i..i + |sub|] == s[1..][j..j + |sub|];
    }
  }

  lemma ContainsTrans<T>(a: seq<T>, b: seq<T>, c: seq<T>)
    requires Contains(a, b) && Contains(b, c)
    ensures Contains(a, c)
  {
    var i := ContainsIndex(a, b);
    var j := ContainsIndex(b, c);
    forall k | 0 <= k < |c|
      ensures a[i + j + k] == c[k]
    {
      assert a[i..i + |b|][j + k] == b[j + k];
      assert b[j..j + |c|][k] == c[k];
    }
    assert a[i + j..i + j + |c|] == c;
    ContainsAt(a, c, i + j);
  }

  lemma ContainsMiddle<T>(x: seq<T>, mid: seq<T>, y: seq<T>, sub: seq<T>)
    requires Contains(mid, sub)
    ensures Contains(x + mid + y, sub)
  {
    var i := ContainsIndex(mid, sub);
    assert (x + mid + y)[|x| + i..|x| + i + |sub|] == mid[i..i + |sub|];
    ContainsAt(x + mid + y, sub, |x| + i);
  }

  lemma SelfContains<T>(s: seq<T>)
    ensures Contains(s, s)
  {
    ContainsAt(s, s, 0);
  }

  lemma {:induction false} JoinContains(parts: seq<string>, sep: string, i: nat)
    requires i < |parts|
    ensures Contains(Join(parts, sep), parts[i])
  {
    if |parts| == 1 {
      SelfContains(parts[0]);
    } else if i == 0 {
      SelfContains(parts[0]);
      ContainsMiddle([], parts[0], sep + Join(parts[1..], sep), parts[0]);
      assert [] + parts[0] + (sep + Join(parts[1..], sep)) == Join(parts, sep);
    } else {
      JoinContains(parts[1..], sep, i - 1);
      ContainsMiddle(parts[0] + sep, Join(parts[1..], sep), [], parts[i]);
      assert parts[0] + sep + Join(parts[1..], sep) + [] == Join(parts, sep);
    }
  }

  lemma ContainsChar(s: string, c: char)
    ensures Contains(s, [c]) ==> c in s
  {
    if Contains(s, [c]) {
      var i := ContainsIndex(s, [c]);
      assert s[i..i + 1] == [c];
      assert s[i] == c;
    }
  }

  // ---------------------------------------------------------------
  // What the cells keep
  // ---------------------------------------------------------------

  /** `s` is a string somewhere inside `v`. */
  predicate Mentions(v: Json, s: string)
    decreases v
  {
    match v
    case JStr(x) => x == s
    case JArr(items) => exists i :: 0 <= i < |items| && Mentions(items[i], s)
    case JObj(fields) => exists i :: 0 <= i < |fields| && MentionsField(v, i, s)
    case _ => false
  }

  predicate MentionsField(v: Json, i: nat, s: string)
    requires v.JObj? && i < |v.fields|
    decreases v, 0
  {
    assert v.fields[i].1 < v.fields[i];
    Mentions(v.fields[i].1, s)
  }

  /** `JSON.stringify` keeps every string inside a value, quoted. */
  lemma {:induction false} StringifyKeeps(v: Json, s: string)
    requires Mentions(v, s)
    ensures Contains(Stringify(v), Quote(s))
    decreases v
  {
    match v
    case JStr(x) =>
      SelfContains(Quote(s));
    case JArr(items) =>
      var i :| 0 <= i < |items| && Mentions(items[i], s);
      var parts := seq(|items|, i requires 0 <= i < |items| => Stringify(items[i]));
      StringifyKeeps(items[i], s);
      JoinContains(parts, ",", i);
      ContainsTrans(Join(parts, ","), parts[i], Quote(s));
      ContainsMiddle("[", Join(parts, ","), "]", Quote(s));
    case JObj(fields) =>
      var i :| 0 <= i < |fields| && MentionsField(v, i, s);
      assert fields[i].1 < fields[i];
      var parts := seq(|fields|, i requires 0 <= i < |fields| => Member(v, i));
      StringifyKeeps(fields[i].1, s);
      ContainsMiddle(Quote(fields[i].0) + ":", Stringify(fields[i].1), [], Quote(s));
      assert Quote(fields[i].0) + ":" + Stringify(fields[i].1) + [] == parts[i];
      JoinContains(parts, ",", i);
      ContainsTrans(Join(parts, ","), parts[i], Quote(s));
      ContainsMiddle("{", Join(parts, ","), "}", Quote(s));
  }

  /** In the corrected export a record's array field is one row whose cell keeps every string
      inside the array. */
  lemma ArrayFieldKept(fields: seq<(string, Json)>, i: nat, prefix: string, s: string)
    requires i < |fields| && fields[i].1.JArr? && Mentions(fields[i].1, s)
    ensures exists row :: row in FlattenWith(JObj(fields), prefix, true) &&
                          row.0 == ChildKey(prefix, fields[i].0) && Contains(row.1, Quote(s))
  {
    var v := JObj(fields);
    var parts := seq(|fields|, i requires 0 <= i < |fields| => FieldRows(v, i, prefix, true));
    var row := (ChildKey(prefix, fields[i].0), Stringify(fields[i].1));
    assert parts[i] == [row];
    InFlat(parts, i, row);
    StringifyKeeps(fields[i].1, s);
  }

  /** A record with one string field, inside a list of records. */
  const SampleRecord: Json := JObj([("note", JStr("x"))])
  const SampleExport: Json := JObj([("visits", JArr([SampleRecord]))])

  /** As written, a list of records inside the export (the user's visits, journals, consents)
      comes out as "[object Object]", which keeps none of their contents. */
  lemma ArrayFieldLostAsWritten()
    ensures FlattenWith(SampleExport, "", false) == [("visits", "[object Object]")]
    ensures Mentions(JArr([SampleRecord]), "x")
    ensures !Contains("[object Object]", "x")
  {
    SampleMentions();
    RecordListText(SampleRecord);
    SampleRows();
    ContainsChar("[object Object]", 'x');
  }

  lemma SampleMentions()
    ensures Mentions(JArr([SampleRecord]), "x")
  {
    assert MentionsField(SampleRecord, 0, "x");
    assert Mentions(SampleRecord, "x");
    assert [SampleRecord][0] == SampleRecord;
  }

  lemma SampleRows()
    requires Text(JArr([SampleRecord])) == "[object Object]"
    ensures FlattenWith(SampleExport, "", false) == [("visits", "[object Object]")]
  {
    assert FieldRows(SampleExport, 0, "", false) == [("visits", "[object Object]")];
    FlatOne(seq(1, i requires 0 <= i < 1 => FieldRows(SampleExport, i, "", false)));
  }

  lemma RecordListText(record: Json)
    requires record.JObj?
    ensures Text(JArr([record])) == "[object Object]"
  {
    assert Join(["[object Object]"], ",") == "[object Object]";
  }

  lemma FlatOne<T>(parts: seq<seq<T>>)
    requires |parts| == 1
    ensures Flat(parts) == parts[0]
  {
    assert Flat(parts[..0]) == [];
  }

  // ---------------------------------------------------------------
  // CSV
  // ---------------------------------------------------------------

  /** `replace(/"/g, '""')`. */
  function EscapeQuotes(s: string): (r: string)
    ensures |r| >= |s|
  {
    if s == [] then ""
    else (if s[0] == '"' then "\"\"" else [s[0]]) + EscapeQuotes(s[1..])
  }

  /** A quoted cell. */
  function Cell(s: string): string {
    "\"" + EscapeQuotes(s) + "\""
  }

  function Line(row: (string, string)): string {
    Cell(row.0) + "," + Cell(row.1)
  }

  function Lines(rows: seq<(string, string)>): (r: seq<string>)
    ensures |r| == |rows| && forall i :: 0 <= i < |rows| ==> r[i] == Line(rows[i])
  {
    seq(|rows|, i requires 0 <= i < |rows| => Line(rows[i]))
  }

  /** The header row, then one row per flattened pair, joined by newlines. */
  function Csv(rows: seq<(string, string)>): string {
    Join(Lines([("key", "value")] + rows), "\n")
  }


  /** Reads a cell body after its opening quote, up to the first quote that is not doubled. */
  function ReadQuoted(t: string): (r: Option<(string, string)>)
    ensures r.Some? ==> |r.value.1| < |t|
  {
    if t == [] then None
    else if t[0] == '"' then
      if |t| > 1 && t[1] == '"' then
        match ReadQuoted(t[2..])
        case None => None
        case Some(p) => Some(("\"" + p.0, p.1))
      else Some(([], t[1..]))
    else
      match ReadQuoted(t[1..])
      case None => None
      case Some(p) => Some(([t[0]] + p.0, p.1))
  }

  function ReadCell(t: string): (r: Option<(string, string)>)
    ensures r.Some? ==> |r.value.1| < |t|
  {
    if |t| > 0 && t[0] == '"' then ReadQuoted(t[1..]) else None
  }

  /** A reader for the export's CSV: two quoted cells per line, lines separated by newlines. */
  function ParseRows(t: string): Option<seq<(string, string)>>
    decreases |t|, 1
  {
    match ReadCell(t)
    case None => None
    case Some(first) =>
      var r1 := first.1;
      if |r1| == 0 || r1[0] != ',' then None
      else
        match ReadCell(r1[1..])
        case None => None
        case Some(second) => Continue((first.0, second.0), second.1)
  }

  /** After a line's two cells: the end of the text, or a newline and the next lines. */
  function Continue(row: (string, string), rest: string): Option<seq<(string, string)>>
    decreases |rest|, 0
  {
    if rest == [] then Some([row])
    else if rest[0] != '\n' then None
    else
      match ParseRows(rest[1..])
      case None => None
      case Some(more) => Some([row] + more)
  }

  lemma {:induction false} ReadEscaped(s: string, rest: string)
    requires rest == [] || rest[0] != '"'
    ensures ReadQuoted(EscapeQuotes(s) + "\"" + rest) == Some((s, rest))
  {
    var t := EscapeQuotes(s) + "\"" + rest;
    if s == [] {
      assert t == "\"" + rest;
    } else if s[0] == '"' {
      ReadEscaped(s[1..], rest);
      assert t[2..] == EscapeQuotes(s[1..]) + "\"" + rest;
      assert "\"" + s[1..] == s;
    } else {
      ReadEscaped(s[1..], rest);
      assert t[1..] == EscapeQuotes(s[1..]) + "\"" + rest;
      assert [s[0]] + s[1..] == s;
    }
  }

  lemma ReadCellThen(s: string, rest: string)
    requires rest == [] || rest[0] != '"'
    ensures ReadCell(Cell(s) + rest) == Some((s, rest))
  {
    ReadEscaped(s, rest);
    var t := Cell(s) + rest;
    assert t[1..] == EscapeQuotes(s) + "\"" + rest;
  }

  lemma ReadFirstCell(row: (string, string), tail: string)
    ensures ReadCell(Line(row) + tail) == Some((row.0, "," + Cell(row.1) + tail))
  {
    ReadCellThen(row.0, "," + Cell(row.1) + tail);
    assert Line(row) + tail == Cell(row.0) + ("," + Cell(row.1) + tail);
  }

  /** One line, then whatever follows it. */
  lemma ParseLineThen(row: (string, string), tail: string)
    requires tail == [] || tail[0] == '\n'
    ensures ParseRows(Line(row) + tail) == Continue(row, tail)
  {
    var r1 := "," + Cell(row.1) + tail;
    assert ReadCell(Line(row) + tail) == Some((row.0, r1)) by {
      ReadFirstCell(row, tail);
    }
    assert ReadCell(r1[1..]) == Some((row.1, tail)) by {
      assert r1[1..] == Cell(row.1) + tail;
      ReadCellThen(row.1, tail);
    }
  }

  lemma {:induction false} ParseJoinedLines(rows: seq<(string, string)>)
    requires rows != []
    ensures ParseRows(Join(Lines(rows), "\n")) == Some(rows)
  {
    var ls := Lines(rows);
    if |rows| == 1 {
      ParseLineThen(rows[0], []);
      assert Join(ls, "\n") == Line(rows[0]) + [];
      assert rows == [rows[0]];
    } else {
      var more := Join(Lines(rows[1..]), "\n");
      assert ls[1..] == Lines(rows[1..]);
      assert Join(ls, "\n") == Line(rows[0]) + ("\n" + more);
      ParseLineThen(rows[0], "\n" + more);
      assert ("\n" + more)[1..] == more;
      ParseJoinedLines(rows[1..]);
      assert [rows[0]] + rows[1..] == rows;
    }
  }

  /** Reading the CSV back gives the header row and then exactly the flattened pairs, whatever
      quotes, commas or newlines the values hold. */
  lemma CsvRoundTrip(rows: seq<(string, string)>)
    ensures ParseRows(Csv(rows)) == Some([("key", "value")] + rows)
  {
    ParseJoinedLines([("key", "value")] + rows);
  }

  /** `exportMyData(userId, 'csv').content` as written, where an array inside a record goes
      through `String(v)`: the file reads back as the header and the flattened rows. */
  function ExportCsv(data: Json): (csv: string)
    ensures ParseRows(csv) == Some([("key", "value")] + FlattenWith(data, "", false))
  {
    CsvRoundTrip(FlattenWith(data, "", false));
    Csv(FlattenWith(data, "", false))
  }

  /** The export with array fields JSON-encoded, as the top-level array branch already does. */
  function ExportCsvIntended(data: Json): (csv: string)
    ensures ParseRows(csv) == Some([("key", "value")] + FlattenWith(data, "", true))
  {
    CsvRoundTrip(FlattenWith(data, "", true));
    Csv(FlattenWith(data, "", true))
  }
}
