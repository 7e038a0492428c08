/**
  The roster CSV parser of the control panel (`csvToJson`). The accepted
  format is one athlete per line, `Athlete ID,First Name,Last Name`; the
  whole text and every line are trimmed, blank lines are skipped, fields
  past the third are ignored, and each of the three fields is trimmed.
  A non-blank line with fewer than three fields makes the JavaScript throw
  (reading `.trim()` of an undefined field); here that is an error result
  naming the offending line.
 */
module Csv {
  import opened Wrappers
  import opened JsString
  import opened Athletes

  /** `line` is the 0-based position, among the non-blank lines, of the first line lacking a field. */
  datatype CsvError = MissingField(line: nat)

  /** `.map(row => row.trim())` */
  function TrimEach(lines: seq<string>): (r: seq<string>)
    ensures |r| == |lines|
    ensures forall k :: 0 <= k < |lines| ==> r[k] == Trim(lines[k])
  {
    if lines == [] then [] else [Trim(lines[0])] + TrimEach(lines[1..])
  }

  /** Every line is trimmed. */
  predicate AllTrimmed(lines: seq<string>) {
    forall k :: 0 <= k < |lines| ==> IsTrimmed(lines[k])
  }

  /** No line is empty. */
  predicate NoneBlank(lines: seq<string>) {
    forall k :: 0 <= k < |lines| ==> lines[k] != ""
  }

  /** Trimming every line leaves trimmed lines, and adds no character. */
  lemma TrimEachKeeps(lines: seq<string>, c: char)
    requires AllFree(lines, c)
    ensures AllTrimmed(TrimEach(lines)) && AllFree(TrimEach(lines), c)
  {
    forall k | 0 <= k < |lines|
      ensures IsTrimmed(TrimEach(lines)[k]) && Free(TrimEach(lines)[k], c)
    {
      TrimIsTrimmed(lines[k]);
      TrimFree(lines[k], c);
    }
  }

  /** `.filter(row => row !== "")` */
  function DropBlank(lines: seq<string>): (r: seq<string>)
    ensures |r| <= |lines| && NoneBlank(r)
    ensures NoneBlank(lines) ==> r == lines
  {
    if lines == [] then []
    else if lines[0] == "" then DropBlank(lines[1..])
    else [lines[0]] + DropBlank(lines[1..])
  }

  /** Dropping blank lines keeps the others as they are. */
  lemma {:induction false} DropBlankKeeps(lines: seq<string>, c: char)
    requires AllTrimmed(lines) && AllFree(lines, c)
    ensures AllTrimmed(DropBlank(lines)) && AllFree(DropBlank(lines), c)
  {
    if lines != [] {
      var rest := lines[1..];
      assert forall k :: 0 <= k < |rest| ==> rest[k] == lines[k + 1];
      DropBlankKeeps(rest, c);
      var r := DropBlank(lines);
      if lines[0] != "" {
        assert forall k :: 1 <= k < |r| ==> r[k] == DropBlank(rest)[k - 1];
      }
    }
  }

  /** `filter` works line by line: the kept lines of `a + b` are those of `a`, then those of `b`. */
  lemma {:induction false} DropBlankConcat(a: seq<string>, b: seq<string>)
    ensures DropBlank(a + b) == DropBlank(a) + DropBlank(b)
    decreases |a|
  {
    if a == [] {
      assert a + b == b;
    } else {
      assert (a + b)[0] == a[0] && (a + b)[1..] == a[1..] + b;
      DropBlankConcat(a[1..], b);
    }
  }

  /** One line is kept exactly when it is not blank. */
  lemma DropBlankSingle(x: string)
    ensures DropBlank([x]) == if x == "" then [] else [x]
  {
    assert [x][1..] == [];
  }

  /** A line survives exactly when it is a non-blank line of the input. */
  lemma {:induction false} DropBlankMembers(lines: seq<string>, x: string)
    ensures x in DropBlank(lines) <==> x in lines && x != ""
    decreases |lines|
  {
    if lines != [] {
      var rest := lines[1..];
      DropBlankMembers(rest, x);
      assert lines == [lines[0]] + rest;
      assert x in lines <==> x == lines[0] || x in rest;
      if lines[0] != "" {
        var kept := DropBlank(lines);
        assert kept == [lines[0]] + DropBlank(rest);
        assert x in kept <==> x == lines[0] || x in DropBlank(rest);
      } else {
        assert DropBlank(lines) == DropBlank(rest);
      }
    }
  }

  /**
    Every non-blank line is kept, at the place that follows the kept lines
    before it: nothing is reordered and nothing else is dropped.
   */
  lemma DropBlankKeepsLine(lines: seq<string>, k: nat)
    requires k < |lines| && lines[k] != ""
    ensures var before := DropBlank(lines[..k]);
      |before| < |DropBlank(lines)| && DropBlank(lines)[|before|] == lines[k]
  {
    assert lines == lines[..k] + ([lines[k]] + lines[k + 1..]);
    DropBlankConcat(lines[..k], [lines[k]] + lines[k + 1..]);
    DropBlankConcat([lines[k]], lines[k + 1..]);
    DropBlankSingle(lines[k]);
  }

  /** The non-blank lines of the input, each trimmed, in input order. */
  function Rows(csv: string): (rows: seq<string>)
    ensures NoneBlank(rows) && AllTrimmed(rows) && AllFree(rows, '\n')
  {
    var lines := Split(Trim(csv), '\n');
    TrimEachKeeps(lines, '\n');
    DropBlankKeeps(TrimEach(lines), '\n');
    DropBlank(TrimEach(lines))
  }

  /** One record `{ id, firstName, lastName }` from the first three comma-separated fields, trimmed. */
  function ParseRow(row: string): (r: Option<Athlete>)
    ensures r.Some? <==> |Split(row, ',')| >= 3
  {
    var fields := Split(row, ',');
    if |fields| < 3 then None
    else Some(Athlete(Trim(fields[0]), Trim(fields[1]), Trim(fields[2])))
  }

  /** `rows.map(...)`: every row becomes one record, or the first short row is reported. */
  function ParseRows(rows: seq<string>): (r: Result<seq<Athlete>, CsvError>)
    ensures r.Ok? ==> |r.value| == |rows|
    ensures r.Err? ==> r.error.line < |rows|
  {
    if rows == [] then Ok([])
    else
      match ParseRow(rows[0])
      case None => Err(MissingField(0))
      case Some(a) =>
        match ParseRows(rows[1..])
        case Ok(rest) => Ok([a] + rest)
        case Err(MissingField(k)) => Err(MissingField(k + 1))
  }

  /**
    The records are the rows' records in order when every row has three
    fields; otherwise the error names the first row that has fewer.
   */
  lemma {:induction false} ParseRowsSpec(rows: seq<string>)
    ensures var r := ParseRows(rows);
      && (r.Ok? <==> forall k :: 0 <= k < |rows| ==> ParseRow(rows[k]).Some?)
      && (r.Ok? ==> forall k :: 0 <= k < |rows| ==> ParseRow(rows[k]) == Some(r.value[k]))
      && (r.Err? ==> ParseRow(rows[r.error.line]).None? &&
                     forall k :: 0 <= k < r.error.line ==> ParseRow(rows[k]).Some?)
  {
    if rows != [] {
      var rest := rows[1..];
      assert forall k :: 0 <= k < |rest| ==> rest[k] == rows[k + 1];
      ParseRowsSpec(rest);
      var r := ParseRows(rows);
      if ParseRow(rows[0]).Some? {
        var tail := ParseRows(rest);
        if tail.Ok? {
          assert forall k :: 1 <= k < |rows| ==> r.value[k] == tail.value[k - 1];
        } else {
          assert r.error.line == tail.error.line + 1;
        }
      }
    }
  }

  /** `csvToJson(csv)` */
  function CsvToJson(csv: string): (r: Result<seq<Athlete>, CsvError>)
    ensures r.Ok? ==> |r.value| == |Rows(csv)|
    ensures r.Err? ==> r.error.line < |Rows(csv)|
  {
    ParseRows(Rows(csv))
  }

  /** An empty or white-space-only file yields no records. */
  lemma BlankInputHasNoRecords(csv: string)
    requires forall i :: 0 <= i < |csv| ==> IsWhiteSpace(csv[i])
    ensures CsvToJson(csv) == Ok([])
  {
    TrimOfWhiteSpace(csv);
    assert Split("", '\n') == [""];
  }

  /** Fields after the third change nothing. */
  lemma {:induction false} ExtraFieldsIgnored(row: string, extra: string)
    requires |Split(row, ',')| >= 3
    ensures ParseRow(row + "," + extra) == ParseRow(row)
  {
    SplitConcat(row, ',', extra);
    var f := Split(row, ',');
    var g := Split(row + "," + extra, ',');
    assert g[..|f|] == f;
  }

  /** A field the documented format can carry unchanged. */
  predicate CleanField(f: string) {
    IsTrimmed(f) && Free(f, ',') && Free(f, '\n')
  }

  predicate CleanRecord(a: Athlete) {
    CleanField(a.id) && CleanField(a.firstName) && CleanField(a.lastName)
  }

  /** The documented line `Athlete ID,First Name,Last Name`. */
  function Line(a: Athlete): string {
    a.id + "," + a.firstName + "," + a.lastName
  }

  function Lines(records: seq<Athlete>): (r: seq<string>)
    ensures |r| == |records| && forall k :: 0 <= k < |records| ==> r[k] == Line(records[k])
  {
    if records == [] then [] else [Line(records[0])] + Lines(records[1..])
  }

  /** A roster file in the documented format: one line per record, joined by newlines. */
  function WriteCsv(records: seq<Athlete>): string {
    Join(Lines(records), '\n')
  }

  lemma LineFields(a: Athlete)
    ensures Join([a.id, a.firstName, a.lastName], ',') == Line(a)
  {
    var fields := [a.id, a.firstName, a.lastName];
    assert fields[1..] == [a.firstName, a.lastName];
    assert fields[1..][1..] == [a.lastName];
    assert Join(fields[1..], ',') == a.firstName + [','] + a.lastName;
    assert Join(fields, ',') == a.id + [','] + (a.firstName + [','] + a.lastName);
  }

  lemma LineTrimmed(a: Athlete)
    requires CleanRecord(a)
    ensures Line(a) != "" && IsTrimmed(Line(a)) && Free(Line(a), '\n')
  {
    var l := Line(a);
    assert l[0] == if a.id == "" then ',' else a.id[0];
    assert l[|l| - 1] == if a.lastName == "" then ',' else a.lastName[|a.lastName| - 1];
  }

  lemma LineOfCleanRecord(a: Athlete)
    requires CleanRecord(a)
    ensures ParseRow(Line(a)) == Some(a)
  {
    var fields := [a.id, a.firstName, a.lastName];
    LineFields(a);
    LineTrimmed(a);
    assert AllFree(fields, ',');
    SplitJoin(fields, ',');
    TrimOfTrimmed(a.id);
    TrimOfTrimmed(a.firstName);
    TrimOfTrimmed(a.lastName);
  }

  /** Joining non-empty trimmed lines gives a trimmed text. */
  lemma {:induction false} JoinTrimmed(parts: seq<string>, sep: char)
    requires forall k :: 0 <= k < |parts| ==> parts[k] != "" && IsTrimmed(parts[k])
    ensures IsTrimmed(Join(parts, sep))
    ensures parts != [] ==> Join(parts, sep) != ""
    decreases |parts|
  {
    if |parts| > 1 {
      JoinTrimmed(parts[1..], sep);
    }
  }

  /** Joining clean lines and taking the rows back out gives the lines. */
  lemma TrimEachTrimmed(lines: seq<string>)
    requires forall k :: 0 <= k < |lines| ==> IsTrimmed(lines[k])
    ensures TrimEach(lines) == lines
  {
    forall k | 0 <= k < |lines| ensures Trim(lines[k]) == lines[k] {
      TrimOfTrimmed(lines[k]);
    }
  }

  lemma JoinedTextTrimmed(lines: seq<string>)
    requires forall k :: 0 <= k < |lines| ==> lines[k] != "" && IsTrimmed(lines[k])
    ensures Trim(Join(lines, '\n')) == Join(lines, '\n')
  {
    JoinTrimmed(lines, '\n');
    TrimOfTrimmed(Join(lines, '\n'));
  }

  lemma RowsOfEmptyText()
    ensures Rows("") == []
  {
    assert Trim("") == "";
    assert Split("", '\n') == [""];
    assert TrimEach([""]) == [""];
  }

  lemma RowsOfJoinedLines(lines: seq<string>)
    requires forall k :: 0 <= k < |lines| ==> lines[k] != "" && IsTrimmed(lines[k])
    requires AllFree(lines, '\n')
    ensures Rows(Join(lines, '\n')) == lines
  {
    if lines == [] {
      RowsOfEmptyText();
    } else {
      var text := Join(lines, '\n');
      JoinedTextTrimmed(lines);
      SplitJoin(lines, '\n');
      TrimEachTrimmed(lines);
      assert Split(Trim(text), '\n') == lines;
    }
  }

  /** The joined text starts with the first part's first character and ends with the last part's last. */
  lemma JoinEnds(parts: seq<string>, sep: char)
    requires parts != [] && parts[0] != "" && parts[|parts| - 1] != ""
    ensures var text := Join(parts, sep);
      && text != "" && text[0] == parts[0][0]
      && text[|text| - 1] == parts[|parts| - 1][|parts[|parts| - 1]| - 1]
  {
    JoinLast(parts, sep);
  }

  /** The joined text ends with the last part's last character when that part is non-empty. */
  lemma {:induction false} JoinLast(parts: seq<string>, sep: char)
    requires parts != [] && parts[|parts| - 1] != ""
    ensures var text := Join(parts, sep);
      text != "" && text[|text| - 1] == parts[|parts| - 1][|parts[|parts| - 1]| - 1]
    decreases |parts|
  {
    if |parts| > 1 {
      JoinLast(parts[1..], sep);
    }
  }

  /**
    A text made of trimmed lines, the first and the last not blank, gives as
    its rows exactly its non-blank lines, in order: the blank lines between
    them drop out.
   */
  lemma RowsOfLines(lines: seq<string>)
    requires AllTrimmed(lines) && AllFree(lines, '\n')
    requires lines != [] ==> lines[0] != "" && lines[|lines| - 1] != ""
    ensures Rows(Join(lines, '\n')) == DropBlank(lines)
  {
    if lines == [] {
      RowsOfEmptyText();
    } else {
      var text := Join(lines, '\n');
      JoinEnds(lines, '\n');
      TrimOfTrimmed(text);
      SplitJoin(lines, '\n');
      TrimEachTrimmed(lines);
      assert Split(Trim(text), '\n') == lines;
    }
  }

  /** The rows of the lines of clean records parse back to those records. */
  lemma {:induction false} ParseLines(records: seq<Athlete>)
    requires forall k :: 0 <= k < |records| ==> CleanRecord(records[k])
    ensures ParseRows(Lines(records)) == Ok(records)
  {
    if records != [] {
      var rest := records[1..];
      assert forall k :: 0 <= k < |rest| ==> rest[k] == records[k + 1];
      ParseLines(rest);
      LineOfCleanRecord(records[0]);
      LineTrimmed(records[0]);
      var lines := Lines(records);
      assert lines == [Line(records[0])] + Lines(rest);
      assert lines[1..] == Lines(rest);
      assert ParseRows(lines) == Ok([records[0]] + rest);
      assert [records[0]] + rest == records;
    }
  }

  /** Writing clean records in the documented format and parsing the file gives the records back. */
  lemma CsvRoundTrip(records: seq<Athlete>)
    requires forall k :: 0 <= k < |records| ==> CleanRecord(records[k])
    ensures CsvToJson(WriteCsv(records)) == Ok(records)
  {
    var lines := Lines(records);
    forall k | 0 <= k < |lines|
      ensures lines[k] != "" && IsTrimmed(lines[k]) && Free(lines[k], '\n')
    {
      LineTrimmed(records[k]);
    }
    RowsOfJoinedLines(lines);
    ParseLines(records);
  }
}
