/**
 * Export and import of memos: the CSV row written for each memo, the
 * decoding of imported files (byte order mark, then a list of text
 * encodings), and the four importers (CSV, JSON, Markdown, plain text)
 * with the defaults each fills in.
 *
 * Formatting and parsing identifiers and ISO 8601 dates, decoding bytes in
 * a given text encoding, the JSON decoder, generating identifiers and
 * reading the clock are parameters.
 */
module ExportManager {
  import opened Wrappers
  import opened Bytes
  import opened DataModels
  import Text
  import Csv

  datatype ExportError = NoData | EncodingError | FileCreationError

  /** `JSONDecoder` failing on an imported file. */
  datatype ImportError = Export(e: ExportError) | DecodingFailed

  /** `exportMemos`: the memos passed in, else all stored memos; an empty list is refused. */
  function MemosToExport(given: Option<seq<QuickMemo>>, stored: seq<QuickMemo>): (r: Result<seq<QuickMemo>, ExportError>)
    ensures given.Some? ==> (r.Ok? <==> given.value != []) && (r.Ok? ==> r.value == given.value)
    ensures given.None? ==> (r.Ok? <==> stored != []) && (r.Ok? ==> r.value == stored)
    ensures r.Err? ==> r.error == NoData
  {
    var memos := given.GetOr(stored);
    if memos == [] then Err(NoData) else Ok(memos)
  }

  // ---- CSV ----

  /** How identifiers and dates are written and read back. */
  datatype Formats = Formats(
    uuidString: Uuid -> string,
    parseUuid: string -> Option<Uuid>,
    dateString: Date -> string,
    parseDate: string -> Option<Date>)

  /**
   * Reading back what was written gives the same identifier and date, and
   * a written date is never empty (as an ISO 8601 timestamp is not).
   */
  ghost predicate Inverse(f: Formats)
  {
    (forall u: Uuid :: f.parseUuid(f.uuidString(u)) == Some(u)) &&
    (forall d: Date :: f.parseDate(f.dateString(d)) == Some(d) && f.dateString(d) != [])
  }

  /** The nine column titles of the exported file. */
  const CsvColumns: seq<string> := ["ID", "タイトル", "内容", "カテゴリー", "タグ", "作成日時", "更新日時", "カレンダーイベントID", "期間(分)"]

  /** The header line: the column titles separated by commas. */
  const CsvHeader: string := Text.Join(CsvColumns, ",")

  /** The nine values of a memo's row, before any quoting. */
  function RowValues(f: Formats, m: QuickMemo): (r: seq<string>)
    ensures |r| == 9
  {
    [f.uuidString(m.id), m.title, m.content, m.primaryCategory, Text.Join(m.tags, ";"),
     f.dateString(m.createdAt), f.dateString(m.updatedAt), m.calendarEventId.GetOr(""),
     Text.IntToDecimal(m.durationMinutes)]
  }

  /**
   * The row `createCSVData` writes: title, content and category are quoted
   * when needed, but the joined tags and the calendar event identifier are
   * written raw.
   */
  function RowAsWritten(f: Formats, m: QuickMemo): string
  {
    f.uuidString(m.id) + "," + Csv.EscapeField(m.title) + "," + Csv.EscapeField(m.content) + "," +
    Csv.EscapeField(m.primaryCategory) + "," + Text.Join(m.tags, ";") + "," +
    f.dateString(m.createdAt) + "," + f.dateString(m.updatedAt) + "," + m.calendarEventId.GetOr("") + "," +
    Text.IntToDecimal(m.durationMinutes)
  }

  /** The row with every value quoted when needed. */
  function Row(f: Formats, m: QuickMemo): string
  {
    Csv.EscapeRow(RowValues(f, m))
  }

  /*
   * The constants and lemmas from here to `TagWithCommaTail` exist only
   * to evaluate one concrete row, the counterexample `RowAsWrittenSplitsTags`:
   * they work over literal strings and state nothing general.
   */

  /** Formats that write identifiers and dates as empty text, which keeps the example row short. */
  const BlankFormats: Formats := Formats(u => "", s => None, d => "", s => None)

  /** A memo whose only tag contains a comma. */
  const TagWithComma: QuickMemo := QuickMemo(0, "", "", "", ["a,b"], 0, 0, None, 0)

  /**
   * A tag containing a comma splits the tags cell of the row as written:
   * the row reads back as ten fields and the tags cell as `a`.
   */
  lemma RowAsWrittenSplitsTags()
    ensures |Csv.ParseLine(RowAsWritten(BlankFormats, TagWithComma))| == 10
    ensures Csv.ParseLine(RowAsWritten(BlankFormats, TagWithComma))[4] == "a"
  {
    TagWithCommaRow();
    TagWithCommaCells();
    Csv.ParseLineEscapeRow(["", "", "", "", "a", "b", "", "", "", "0"]);
  }

  lemma TagWithCommaRow()
    ensures RowAsWritten(BlankFormats, TagWithComma) == ",,,,a,b,,,,0"
  {
    assert Text.IntToDecimal(0) == "0";
    assert Csv.EscapeField("") == "";
  }

  /** The example row is what escaping ten plain cells gives. */
  lemma TagWithCommaCells()
    ensures Csv.EscapeRow(["", "", "", "", "a", "b", "", "", "", "0"]) == ",,,,a,b,,,,0"
  {
    TagWithCommaCells1();
    EscapeRowPlainCons("", ["", "", "", "a", "b", "", "", "", "0"], ",,,a,b,,,,0");
    TagWithCommaLiterals();
  }

  lemma TagWithCommaLiterals()
    ensures [""] + ["", "", "", "a", "b", "", "", "", "0"] == ["", "", "", "", "a", "b", "", "", "", "0"]
    ensures "" + "," + ",,,a,b,,,,0" == ",,,,a,b,,,,0"
  {
  }

  lemma TagWithCommaCells1()
    ensures Csv.EscapeRow(["", "", "", "a", "b", "", "", "", "0"]) == ",,,a,b,,,,0"
  {
    TagWithCommaCells2();
    EscapeRowPlainCons("", ["", "", "a", "b", "", "", "", "0"], ",,a,b,,,,0");
    TagWithCommaCells1Literals();
  }

  lemma TagWithCommaCells1Literals()
    ensures [""] + ["", "", "a", "b", "", "", "", "0"] == ["", "", "", "a", "b", "", "", "", "0"]
    ensures "" + "," + ",,a,b,,,,0" == ",,,a,b,,,,0"
  {
  }

  lemma TagWithCommaCells2()
    ensures Csv.EscapeRow(["", "", "a", "b", "", "", "", "0"]) == ",,a,b,,,,0"
  {
    TagWithCommaCells3();
    EscapeRowPlainCons("", ["", "a", "b", "", "", "", "0"], ",a,b,,,,0");
    TagWithCommaCells2Literals();
  }

  lemma TagWithCommaCells2Literals()
    ensures [""] + ["", "a", "b", "", "", "", "0"] == ["", "", "a", "b", "", "", "", "0"]
    ensures "" + "," + ",a,b,,,,0" == ",,a,b,,,,0"
  {
  }

  lemma TagWithCommaCells3()
    ensures Csv.EscapeRow(["", "a", "b", "", "", "", "0"]) == ",a,b,,,,0"
  {
    TagWithCommaCells4();
    EscapeRowPlainCons("", ["a", "b", "", "", "", "0"], "a,b,,,,0");
    TagWithCommaCells3Literals();
  }

  lemma TagWithCommaCells3Literals()
    ensures [""] + ["a", "b", "", "", "", "0"] == ["", "a", "b", "", "", "", "0"]
    ensures "" + "," + "a,b,,,,0" == ",a,b,,,,0"
  {
  }

  lemma TagWithCommaCells4()
    ensures Csv.EscapeRow(["a", "b", "", "", "", "0"]) == "a,b,,,,0"
  {
    TagWithCommaTail();
    assert Csv.EscapeField("a") == "a";
    EscapeRowPlainCons("a", ["b", "", "", "", "0"], "b,,,,0");
    TagWithCommaCells4Literals();
  }

  lemma TagWithCommaCells4Literals()
    ensures ["a"] + ["b", "", "", "", "0"] == ["a", "b", "", "", "", "0"]
    ensures "a" + "," + "b,,,,0" == "a,b,,,,0"
  {
  }

  /** A cell that needs no quotes is written as is, before a comma and the rest of the row. */
  lemma EscapeRowPlainCons(cell: string, rest: seq<string>, restRow: string)
    requires !Csv.NeedsQuotes(cell) && rest != [] && Csv.EscapeRow(rest) == restRow
    ensures Csv.EscapeRow([cell] + rest) == cell + "," + restRow
  {
    assert ([cell] + rest)[1..] == rest;
  }

  lemma TagWithCommaTail()
    ensures Csv.EscapeRow(["b", "", "", "", "0"]) == "b,,,,0"
  {
    assert Csv.EscapeField("") == "";
    assert Csv.EscapeField("b") == "b" && Csv.EscapeField("0") == "0";
  }

  /** What `importCSVData` makes of a row with at least nine fields. */
  function MemoFromFields(f: Formats, freshId: Uuid, now: Date, fields: seq<string>): (m: QuickMemo)
    requires |fields| >= 9
    ensures m.title == fields[1] && m.content == fields[2] && m.primaryCategory == fields[3]
    ensures m.tags == [] <==> fields[4] == []
    ensures fields[4] != [] ==> Text.Join(m.tags, ";") == fields[4]
    ensures forall k :: 0 <= k < |m.tags| ==> ';' !in m.tags[k]
    ensures Text.ParseInt(fields[8]).None? ==> m.durationMinutes == DefaultDurationMinutes
    ensures (fields[6] == [] || f.parseDate(fields[6]).None?) ==> m.updatedAt == m.createdAt
    ensures m.calendarEventId.None? <==> fields[7] == []
    ensures m.id == f.parseUuid(fields[0]).GetOr(freshId)
    ensures m.createdAt == f.parseDate(fields[5]).GetOr(now)
    ensures fields[6] != [] && f.parseDate(fields[6]).Some? ==> m.updatedAt == f.parseDate(fields[6]).value
    ensures fields[7] != [] ==> m.calendarEventId == Some(fields[7])
    ensures Text.ParseInt(fields[8]).Some? ==> m.durationMinutes == Text.ParseInt(fields[8]).value
  {
    var tags := if fields[4] == [] then [] else Text.SplitOn(fields[4], ';');
    assert fields[4] != [] ==> Text.Join(tags, ";") == fields[4] by {
      if fields[4] != [] {
        Text.JoinSplitOn(fields[4], ';');
      }
    }
    var createdAt := f.parseDate(fields[5]).GetOr(now);
    var lastModified := if fields[6] == [] then None else f.parseDate(fields[6]);
    QuickMemo(
      f.parseUuid(fields[0]).GetOr(freshId),
      fields[1], fields[2], fields[3], tags,
      createdAt, lastModified.GetOr(createdAt),
      if fields[7] == [] then None else Some(fields[7]),
      Text.ParseInt(fields[8]).GetOr(DefaultDurationMinutes))
  }

  /** A memo the importer can read back exactly. */
  predicate CsvSafe(m: QuickMemo)
  {
    m.tags != [""] && (forall k :: 0 <= k < |m.tags| ==> ';' !in m.tags[k]) &&
    m.calendarEventId != Some("") &&
    Text.Int64Min <= m.durationMinutes <= Text.Int64Max
  }

  /**
   * Export then import of one row: with every value quoted when needed and
   * formats that read back what they write, the memo comes back unchanged.
   */
  lemma RowRoundTrip(f: Formats, freshId: Uuid, now: Date, m: QuickMemo)
    requires Inverse(f) && CsvSafe(m)
    ensures |Csv.ParseLine(Row(f, m))| == 9 && MemoFromFields(f, freshId, now, Csv.ParseLine(Row(f, m))) == m
  {
    var v := RowValues(f, m);
    Csv.ParseLineEscapeRow(v);
    Text.ParseIntToDecimal(m.durationMinutes);
    if m.tags != [] {
      Text.SplitJoin(m.tags, ';');
      if |m.tags| == 1 {
        assert Text.Join(m.tags, ";") == m.tags[0];
      } else {
        assert Text.Join(m.tags, ";") == m.tags[0] + ";" + Text.Join(m.tags[1..], ";");
      }
    }
    assert f.parseDate(f.dateString(m.createdAt)) == Some(m.createdAt);
    assert f.parseDate(f.dateString(m.updatedAt)) == Some(m.updatedAt) && f.dateString(m.updatedAt) != [];
    assert f.parseUuid(f.uuidString(m.id)) == Some(m.id);
    assert Csv.ParseLine(Row(f, m)) == v;
    var r := MemoFromFields(f, freshId, now, v);
    assert r.id == m.id && r.createdAt == m.createdAt && r.updatedAt == m.updatedAt;
    assert r.tags == m.tags;
    assert r.calendarEventId == m.calendarEventId;
    assert r.durationMinutes == m.durationMinutes;
  }

  /** The memo of line `k` of the file, `None` when the line is skipped. */
  function LineMemo(f: Formats, newId: nat -> Uuid, now: Date, line: string, k: nat): (r: Option<QuickMemo>)
    ensures r.Some? <==> line != [] && |Csv.ParseLine(line)| >= 9
  {
    if line == [] then None
    else
      var fields := Csv.ParseLine(line);
      if |fields| < 9 then None else Some(MemoFromFields(f, newId(k), now, fields))
  }

  /** The memo each line of the file gives, `None` for a line that is skipped. */
  function LineResults(f: Formats, newId: nat -> Uuid, now: Date, lines: seq<string>): seq<Option<QuickMemo>>
  {
    seq(|lines|, k requires 0 <= k < |lines| => LineMemo(f, newId, now, lines[k], k))
  }

  /** The values present at positions 1 to `n - 1`, in order; position 0 is the header. */
  function Present<T>(opts: seq<Option<T>>, n: nat): (r: seq<T>)
    requires n <= |opts|
    ensures |r| <= n
  {
    if n <= 1 then []
    else
      var prev := Present(opts, n - 1);
      if opts[n - 1].Some? then prev + [opts[n - 1].value] else prev
  }

  /** Every value gathered was present at some position after the header. */
  lemma {:induction false} PresentOnly<T>(opts: seq<Option<T>>, n: nat, m: T)
    requires n <= |opts| && m in Present(opts, n)
    ensures exists k :: 1 <= k < n && opts[k] == Some(m)
  {
    if m !in Present(opts, n - 1) {
      assert opts[n - 1] == Some(m);
    } else {
      PresentOnly(opts, n - 1, m);
    }
  }

  /** Every value present after the header is gathered. */
  lemma {:induction false} PresentAll<T>(opts: seq<Option<T>>, n: nat, k: nat)
    requires n <= |opts| && 1 <= k < n && opts[k].Some?
    ensures opts[k].value in Present(opts, n)
  {
    if k < n - 1 {
      PresentAll(opts, n - 1, k);
    }
  }

  /** The memos of lines 1 to `n - 1`, in file order. */
  function LinesMemos(f: Formats, newId: nat -> Uuid, now: Date, lines: seq<string>, n: nat): (r: seq<QuickMemo>)
    requires n <= |lines|
    ensures |r| <= n
  {
    Present(LineResults(f, newId, now, lines), n)
  }

  /** One more line adds its memo, if it gives one. */
  lemma LinesMemosStep(f: Formats, newId: nat -> Uuid, now: Date, lines: seq<string>, i: nat)
    requires 1 <= i < |lines|
    ensures var prev := LinesMemos(f, newId, now, lines, i);
            var res := LineMemo(f, newId, now, lines[i], i);
            LinesMemos(f, newId, now, lines, i + 1) == if res.Some? then prev + [res.value] else prev
  {
  }

  /** `importCSVData` on the decoded text: fewer than two lines is an error. */
  function ImportCsvText(f: Formats, newId: nat -> Uuid, now: Date, text: string): (r: Result<seq<QuickMemo>, ExportError>)
    ensures r.Err? <==> |Text.SplitWhere(text, Text.IsNewline)| < 2
    ensures r.Err? ==> r.error == NoData
  {
    var lines := Text.SplitWhere(text, Text.IsNewline);
    if |lines| < 2 then Err(NoData) else Ok(LinesMemos(f, newId, now, lines, |lines|))
  }

  /** Only rows that are non-empty and have nine fields become memos; every other line is skipped. */
  lemma LinesMemosOnlyFullRows(f: Formats, newId: nat -> Uuid, now: Date, lines: seq<string>, n: nat, m: QuickMemo)
    requires n <= |lines| && m in LinesMemos(f, newId, now, lines, n)
    ensures exists k :: 1 <= k < n && LineMemo(f, newId, now, lines[k], k) == Some(m)
  {
    var results := LineResults(f, newId, now, lines);
    PresentOnly(results, n, m);
    var k :| 1 <= k < n && results[k] == Some(m);
    assert LineMemo(f, newId, now, lines[k], k) == Some(m);
  }

  /** Every non-empty row with at least nine fields becomes a memo. */
  lemma LinesMemosAllFullRows(f: Formats, newId: nat -> Uuid, now: Date, lines: seq<string>, n: nat, k: nat)
    requires n <= |lines| && 1 <= k < n && LineMemo(f, newId, now, lines[k], k).Some?
    ensures LineMemo(f, newId, now, lines[k], k).value in LinesMemos(f, newId, now, lines, n)
  {
    PresentAll(LineResults(f, newId, now, lines), n, k);
  }

  method ImportCsvData(f: Formats, newId: nat -> Uuid, now: Date, text: string) returns (r: Result<seq<QuickMemo>, ExportError>)
    ensures r == ImportCsvText(f, newId, now, text)
  {
    var lines := Text.SplitWhere(text, Text.IsNewline);
    if |lines| < 2 {
      return Err(NoData);
    }
    var memos := ImportCsvLines(f, newId, now, lines);
    return Ok(memos);
  }

  /** The loop of `importCSVData` over the lines after the header. */
  method ImportCsvLines(f: Formats, newId: nat -> Uuid, now: Date, lines: seq<string>) returns (memos: seq<QuickMemo>)
    requires |lines| >= 1
    ensures memos == LinesMemos(f, newId, now, lines, |lines|)
  {
    memos := [];
    for i := 1 to |lines|
      invariant memos == LinesMemos(f, newId, now, lines, i)
    {
      var parsed := ImportCsvLine(f, newId, now, lines[i], i);
      LinesMemosStep(f, newId, now, lines, i);
      if parsed.Some? {
        memos := memos + [parsed.value];
      }
    }
  }

  /** The body of that loop: a non-empty line of at least nine fields gives a memo. */
  method ImportCsvLine(f: Formats, newId: nat -> Uuid, now: Date, line: string, index: nat) returns (parsed: Option<QuickMemo>)
    ensures parsed == LineMemo(f, newId, now, line, index)
  {
    parsed := None;
    if line != [] {
      var fields := Csv.ParseCsvLine(line);
      if |fields| >= 9 {
        parsed := Some(MemoFromFields(f, newId(index), now, fields));
      }
    }
  }

  // ---- the whole CSV file ----

  /** No character of `s` starts a new line for `components(separatedBy: .newlines)`. */
  predicate NoNewline(s: string)
  {
    forall i :: 0 <= i < |s| ==> !Text.IsNewline(s[i])
  }

  /** A memo none of whose row values holds a line break, so its row stays on one line. */
  predicate OneLine(f: Formats, m: QuickMemo)
  {
    forall k :: 0 <= k < 9 ==> NoNewline(RowValues(f, m)[k])
  }

  /** A one-line memo's row is a single non-empty line. */
  lemma RowIsOneLine(f: Formats, m: QuickMemo)
    requires OneLine(f, m)
    ensures Row(f, m) != [] && NoNewline(Row(f, m))
  {
    var v := RowValues(f, m);
    var row := Row(f, m);
    Csv.EscapeRowChars(v);
    forall i | 0 <= i < |row|
      ensures !Text.IsNewline(row[i])
    {
      assert row[i] in row;
      if row[i] != Csv.Comma && row[i] != Csv.Quote {
        var k :| 0 <= k < |v| && row[i] in v[k];
        var j :| 0 <= j < |v[k]| && v[k][j] == row[i];
        assert NoNewline(v[k]);
      }
    }
  }

  /** Lines, each followed by a line feed. */
  function Terminated(lines: seq<string>): (r: string)
    ensures lines == [] <==> r == []
  {
    if lines == [] then [] else lines[0] + "\n" + Terminated(lines[1..])
  }

  /** One more line appends it and a line feed. */
  lemma {:induction false} TerminatedAppend(lines: seq<string>, line: string)
    ensures Terminated(lines + [line]) == Terminated(lines) + line + "\n"
    decreases |lines|
  {
    if lines == [] {
      assert [line][1..] == [];
    } else {
      assert (lines + [line])[1..] == lines[1..] + [line];
      TerminatedAppend(lines[1..], line);
    }
  }

  /** A line followed by terminated lines is the lines joined by line feeds, with an empty last line. */
  lemma {:induction false} TerminatedJoin(head: string, lines: seq<string>)
    ensures head + "\n" + Terminated(lines) == Text.Join([head] + lines + [""], "\n")
    decreases |lines|
  {
    var parts := [head] + lines + [""];
    if lines == [] {
      assert parts == [head, ""];
      assert parts[1..] == [""];
    } else {
      TerminatedJoin(lines[0], lines[1..]);
      assert parts[1..] == [lines[0]] + lines[1..] + [""];
      assert head + "\n" + Terminated(lines) == head + "\n" + (lines[0] + "\n" + Terminated(lines[1..]));
    }
  }

  /** The rows of the memos, one string each, in memo order. */
  function RowsOf(f: Formats, memos: seq<QuickMemo>): (r: seq<string>)
    ensures |r| == |memos| && forall i :: 0 <= i < |memos| ==> r[i] == Row(f, memos[i])
  {
    seq(|memos|, i requires 0 <= i < |memos| => Row(f, memos[i]))
  }

  /** The text of the exported file with every value quoted when needed: the header line, then one line per memo. */
  function CsvText(f: Formats, memos: seq<QuickMemo>): string
  {
    CsvHeader + "\n" + Terminated(RowsOf(f, memos))
  }

  /** The rows `createCSVData` writes, one string each, in memo order. */
  function RowsAsWritten(f: Formats, memos: seq<QuickMemo>): (r: seq<string>)
    ensures |r| == |memos| && forall i :: 0 <= i < |memos| ==> r[i] == RowAsWritten(f, memos[i])
  {
    seq(|memos|, i requires 0 <= i < |memos| => RowAsWritten(f, memos[i]))
  }

  /** The text `createCSVData` writes: the header line, then one row as written per memo. */
  function CsvTextAsWritten(f: Formats, memos: seq<QuickMemo>): string
  {
    CsvHeader + "\n" + Terminated(RowsAsWritten(f, memos))
  }

  /** `createCSVData` on the text before it is encoded: the header line, then the loop over the memos. */
  method CreateCsvText(f: Formats, memos: seq<QuickMemo>) returns (text: string)
    ensures text == CsvTextAsWritten(f, memos)
  {
    var rows := RowsAsWritten(f, memos);
    text := AppendLines(CsvHeader + "\n", rows);
  }

  /** One more value at the end of a row adds a comma and the escaped value. */
  lemma {:induction false} EscapeRowSnoc(a: seq<string>, x: string)
    requires a != []
    ensures Csv.EscapeRow(a + [x]) == Csv.EscapeRow(a) + "," + Csv.EscapeField(x)
    decreases |a|
  {
    assert (a + [x])[0] == a[0] && (a + [x])[1..] == a[1..] + [x];
    if |a| > 1 {
      EscapeRowSnoc(a[1..], x);
    }
  }

  /** The row of the first `k + 1` values is the row of the first `k`, a comma and the next escaped value. */
  lemma EscapeRowPrefixStep(v: seq<string>, k: nat)
    requires 1 <= k < |v|
    ensures Csv.EscapeRow(v[..k + 1]) == Csv.EscapeRow(v[..k]) + "," + Csv.EscapeField(v[k])
  {
    assert v[..k + 1] == v[..k] + [v[k]];
    EscapeRowSnoc(v[..k], v[k]);
  }

  /** A row of nine values is the nine escaped values separated by commas. */
  lemma EscapeRowNine(v: seq<string>)
    requires |v| == 9
    ensures Csv.EscapeRow(v) ==
      Csv.EscapeField(v[0]) + "," + Csv.EscapeField(v[1]) + "," + Csv.EscapeField(v[2]) + "," +
      Csv.EscapeField(v[3]) + "," + Csv.EscapeField(v[4]) + "," + Csv.EscapeField(v[5]) + "," +
      Csv.EscapeField(v[6]) + "," + Csv.EscapeField(v[7]) + "," + Csv.EscapeField(v[8])
  {
    assert v[..1] == [v[0]];
    EscapeRowPrefixStep(v, 1);
    EscapeRowPrefixStep(v, 2);
    EscapeRowPrefixStep(v, 3);
    EscapeRowPrefixStep(v, 4);
    EscapeRowPrefixStep(v, 5);
    EscapeRowPrefixStep(v, 6);
    EscapeRowPrefixStep(v, 7);
    EscapeRowPrefixStep(v, 8);
    assert v[..9] == v;
  }

  /** The cells `createCSVData` writes unescaped need no quotes. */
  predicate PlainRawCells(f: Formats, m: QuickMemo)
  {
    var v := RowValues(f, m);
    !Csv.NeedsQuotes(v[0]) && !Csv.NeedsQuotes(v[4]) && !Csv.NeedsQuotes(v[5]) &&
    !Csv.NeedsQuotes(v[6]) && !Csv.NeedsQuotes(v[7]) && !Csv.NeedsQuotes(v[8])
  }

  /** When the unescaped cells need no quotes, the row as written is the fully escaped row. */
  lemma RowAsWrittenIsRow(f: Formats, m: QuickMemo)
    requires PlainRawCells(f, m)
    ensures RowAsWritten(f, m) == Row(f, m)
  {
    EscapeRowNine(RowValues(f, m));
  }

  /**
   * Export as written then import: when no memo's identifier, joined tags,
   * dates, event identifier or duration needs quoting, the text
   * `createCSVData` writes imports back as the same memos in the same order.
   */
  lemma CsvAsWrittenRoundTrip(f: Formats, newId: nat -> Uuid, now: Date, memos: seq<QuickMemo>)
    requires Inverse(f)
    requires forall m :: m in memos ==> CsvSafe(m) && OneLine(f, m) && PlainRawCells(f, m)
    ensures ImportCsvText(f, newId, now, CsvTextAsWritten(f, memos)) == Ok(memos)
  {
    forall i | 0 <= i < |memos|
      ensures RowsAsWritten(f, memos)[i] == RowsOf(f, memos)[i]
    {
      RowAsWrittenIsRow(f, memos[i]);
    }
    assert RowsAsWritten(f, memos) == RowsOf(f, memos);
    CsvFileRoundTrip(f, newId, now, memos);
  }

  /** The loop of `createCSVData`: appends each row and a line feed to `start`, in order. */
  method AppendLines(start: string, rows: seq<string>) returns (text: string)
    ensures text == start + Terminated(rows)
  {
    text := start;
    assert rows[..0] == [];
    for i := 0 to |rows|
      invariant text == start + Terminated(rows[..i])
    {
      TerminatedAppend(rows[..i], rows[i]);
      assert rows[..i + 1] == rows[..i] + [rows[i]];
      text := text + rows[i] + "\n";
    }
    assert rows[..|rows|] == rows;
  }

  lemma NoNewlineAppend(a: string, b: string)
    requires NoNewline(a) && NoNewline(b)
    ensures NoNewline(a + b)
  {
    forall i | 0 <= i < |a + b|
      ensures !Text.IsNewline((a + b)[i])
    {
      if i >= |a| {
        assert (a + b)[i] == b[i - |a|];
      }
    }
  }

  /** Joining one-line pieces with a one-line separator gives one line. */
  lemma {:induction false} NoNewlineJoin(parts: seq<string>, sep: string)
    requires NoNewline(sep) && forall k :: 0 <= k < |parts| ==> NoNewline(parts[k])
    ensures NoNewline(Text.Join(parts, sep))
  {
    if |parts| >= 2 {
      NoNewlineJoin(parts[1..], sep);
      NoNewlineAppend(parts[0], sep);
      NoNewlineAppend(parts[0] + sep, Text.Join(parts[1..], sep));
    }
  }

  /** The header is one line. */
  lemma HeaderOneLine()
    ensures NoNewline(CsvHeader)
  {
    forall k | 0 <= k < |CsvColumns|
      ensures NoNewline(CsvColumns[k])
    {
    }
    NoNewlineJoin(CsvColumns, ",");
  }

  /** Position 0 is skipped and positions 1 to |xs| hold the values: the first n - 1 of them are gathered. */
  lemma {:induction false} PresentExactly<T>(opts: seq<Option<T>>, xs: seq<T>, n: nat)
    requires |opts| == |xs| + 2 && 1 <= n <= |xs| + 1
    requires forall k :: 1 <= k <= |xs| ==> opts[k] == Some(xs[k - 1])
    ensures Present(opts, n) == xs[..n - 1]
  {
    if n > 1 {
      PresentExactly(opts, xs, n - 1);
      assert xs[..n - 1] == xs[..n - 2] + [xs[n - 2]];
    }
  }

  /** Each row of the file reads back as its memo; the empty last line gives nothing. */
  lemma RowLinesReadBack(f: Formats, newId: nat -> Uuid, now: Date, memos: seq<QuickMemo>, lines: seq<string>)
    requires Inverse(f)
    requires forall m :: m in memos ==> CsvSafe(m) && OneLine(f, m)
    requires |lines| == |memos| + 2 && lines[|memos| + 1] == []
    requires forall k :: 1 <= k <= |memos| ==> lines[k] == Row(f, memos[k - 1])
    ensures forall k :: 1 <= k <= |memos| ==> LineResults(f, newId, now, lines)[k] == Some(memos[k - 1])
    ensures LineResults(f, newId, now, lines)[|memos| + 1] == None
  {
    forall k | 1 <= k <= |memos|
      ensures LineResults(f, newId, now, lines)[k] == Some(memos[k - 1])
    {
      var m := memos[k - 1];
      RowIsOneLine(f, m);
      RowRoundTrip(f, newId(k), now, m);
    }
  }

  /** Splitting a one-line head and terminated one-line rows at line breaks gives them back, and an empty last line. */
  lemma SplitTerminated(head: string, rows: seq<string>)
    requires NoNewline(head) && forall k :: 0 <= k < |rows| ==> NoNewline(rows[k])
    ensures Text.SplitWhere(head + "\n" + Terminated(rows), Text.IsNewline) == [head] + rows + [""]
  {
    var lines := [head] + rows + [""];
    TerminatedJoin(head, rows);
    forall k, i | 0 <= k < |lines| && 0 <= i < |lines[k]|
      ensures !Text.IsNewline(lines[k][i])
    {
      if 1 <= k <= |rows| {
        assert lines[k] == rows[k - 1];
      } else {
        assert k == 0;
      }
    }
    Text.SplitWhereJoin(lines, '\n', Text.IsNewline);
  }

  /** A header, one row per memo and an empty last line read back as the memos. */
  lemma RowLinesMemos(f: Formats, newId: nat -> Uuid, now: Date, memos: seq<QuickMemo>, lines: seq<string>)
    requires Inverse(f)
    requires forall m :: m in memos ==> CsvSafe(m) && OneLine(f, m)
    requires |lines| == |memos| + 2 && lines[|memos| + 1] == []
    requires forall k :: 1 <= k <= |memos| ==> lines[k] == Row(f, memos[k - 1])
    ensures LinesMemos(f, newId, now, lines, |lines|) == memos
  {
    var results := LineResults(f, newId, now, lines);
    RowLinesReadBack(f, newId, now, memos, lines);
    PresentExactly(results, memos, |lines| - 1);
    assert memos[..|memos|] == memos;
    assert results[|lines| - 1] == None;
  }

  /** The file round trip for any one-line header. */
  lemma RowsFileRoundTrip(f: Formats, newId: nat -> Uuid, now: Date, head: string, memos: seq<QuickMemo>)
    requires Inverse(f) && NoNewline(head)
    requires forall m :: m in memos ==> CsvSafe(m) && OneLine(f, m)
    ensures ImportCsvText(f, newId, now, head + "\n" + Terminated(RowsOf(f, memos))) == Ok(memos)
  {
    var rows := RowsOf(f, memos);
    forall k | 0 <= k < |rows|
      ensures NoNewline(rows[k])
    {
      RowIsOneLine(f, memos[k]);
    }
    SplitTerminated(head, rows);
    var lines := [head] + rows + [""];
    forall k | 1 <= k <= |memos|
      ensures lines[k] == Row(f, memos[k - 1])
    {
      assert lines[k] == rows[k - 1];
    }
    RowLinesMemos(f, newId, now, memos, lines);
  }

  /**
   * Export then import of a whole file: with formats that read back what
   * they write, memos the importer can read back and no line break in any
   * row value, importing the exported text gives the same memos in the
   * same order.
   */
  lemma CsvFileRoundTrip(f: Formats, newId: nat -> Uuid, now: Date, memos: seq<QuickMemo>)
    requires Inverse(f)
    requires forall m :: m in memos ==> CsvSafe(m) && OneLine(f, m)
    ensures ImportCsvText(f, newId, now, CsvText(f, memos)) == Ok(memos)
  {
    HeaderOneLine();
    RowsFileRoundTrip(f, newId, now, CsvHeader, memos);
  }

  // ---- decoding imported bytes ----

  datatype Encoding = Utf8 | ShiftJis | JapaneseEuc | Utf16 | Utf16BigEndian | Utf16LittleEndian | IsoLatin1

  /** The encodings tried in turn, in this order. */
  const Encodings: seq<Encoding> := [Utf8, ShiftJis, JapaneseEuc, Utf16, Utf16BigEndian, Utf16LittleEndian, IsoLatin1]

  /** The first of `encs` that decodes `data`. */
  function FirstDecoding(decode: (Encoding, seq<byte>) -> Option<string>, data: seq<byte>, encs: seq<Encoding>): (r: Option<string>)
  {
    if encs == [] then None
    else match decode(encs[0], data)
      case Some(text) => Some(text)
      case None => FirstDecoding(decode, data, encs[1..])
  }

  /** The text found is the one the first successful encoding gives, and no earlier one succeeds. */
  lemma {:induction false} FirstDecodingIsFirst(decode: (Encoding, seq<byte>) -> Option<string>, data: seq<byte>, encs: seq<Encoding>)
    ensures FirstDecoding(decode, data, encs).None? <==> forall k :: 0 <= k < |encs| ==> decode(encs[k], data).None?
    ensures FirstDecoding(decode, data, encs).Some? ==>
              exists k :: 0 <= k < |encs| && decode(encs[k], data) == FirstDecoding(decode, data, encs) &&
                          forall j :: 0 <= j < k ==> decode(encs[j], data).None?
  {
    if encs != [] && decode(encs[0], data).None? {
      FirstDecodingIsFirst(decode, data, encs[1..]);
      if FirstDecoding(decode, data, encs).Some? {
        var k :| 0 <= k < |encs[1..]| && decode(encs[1..][k], data) == FirstDecoding(decode, data, encs[1..]) &&
                 forall j :: 0 <= j < k ==> decode(encs[1..][j], data).None?;
        assert forall j :: 0 <= j < k + 1 ==> decode(encs[j], data).None? by {
          forall j | 0 <= j < k + 1 ensures decode(encs[j], data).None? {
            if j > 0 { assert encs[j] == encs[1..][j - 1]; }
          }
        }
      } else {
        forall k | 0 <= k < |encs| ensures decode(encs[k], data).None? {
          if k > 0 { assert encs[k] == encs[1..][k - 1]; }
        }
      }
    } else if encs != [] {
      assert decode(encs[0], data) == FirstDecoding(decode, data, encs);
    }
  }

  /**
   * `decodeTextData`: data starting with the UTF-8 byte order mark is
   * decoded as UTF-8 without it when that succeeds; otherwise the whole
   * data is decoded with the first encoding that succeeds.
   */
  function DecodeText(decode: (Encoding, seq<byte>) -> Option<string>, data: seq<byte>): (r: Result<string, ExportError>)
    ensures r.Err? ==> r.error == EncodingError
  {
    if |data| >= 3 && data[..3] == Utf8Bom && decode(Utf8, data[3..]).Some? then Ok(decode(Utf8, data[3..]).value)
    else match FirstDecoding(decode, data, Encodings)
      case Some(text) => Ok(text)
      case None => Err(EncodingError)
  }

  /** With a byte order mark and valid UTF-8 after it, the mark is not part of the text. */
  lemma DecodeTextDropsBom(decode: (Encoding, seq<byte>) -> Option<string>, rest: seq<byte>)
    requires decode(Utf8, rest).Some?
    ensures DecodeText(decode, Utf8Bom + rest) == Ok(decode(Utf8, rest).value)
  {
    assert (Utf8Bom + rest)[..3] == Utf8Bom;
    assert (Utf8Bom + rest)[3..] == rest;
  }

  method DecodeTextData(decode: (Encoding, seq<byte>) -> Option<string>, data: seq<byte>) returns (r: Result<string, ExportError>)
    ensures r == DecodeText(decode, data)
  {
    if |data| >= 3 && data[..3] == Utf8Bom {
      var text := decode(Utf8, data[3..]);
      if text.Some? {
        return Ok(text.value);
      }
    }
    var i := 0;
    while i < |Encodings|
      invariant 0 <= i <= |Encodings|
      invariant FirstDecoding(decode, data, Encodings[i..]) == FirstDecoding(decode, data, Encodings)
    {
      assert Encodings[i..][1..] == Encodings[i + 1..];
      var text := decode(Encodings[i], data);
      if text.Some? {
        return Ok(text.value);
      }
      i := i + 1;
    }
    return Err(EncodingError);
  }

  // ---- plain text ----

  /** `importTextData` on decoded text: the whole trimmed text is one memo in `その他`. */
  function ImportText(freshId: Uuid, now: Date, text: string): (r: Result<seq<QuickMemo>, ExportError>)
    ensures r.Err? <==> Text.Trim(text) == []
    ensures r.Err? ==> r.error == NoData
    ensures r.Ok? ==> |r.value| == 1 && r.value[0].content == Text.Trim(text) && r.value[0].primaryCategory == OtherCategory
    ensures r.Ok? ==> r.value[0].tags == [] && r.value[0].id == freshId
  {
    var content := Text.Trim(text);
    if content == [] then Err(NoData)
    else Ok([NewMemo(freshId, now, "", content, OtherCategory, [], DefaultDurationMinutes)])
  }

  // ---- Markdown ----

  /** The fields being gathered while reading the lines of one section. */
  datatype SectionState = SectionState(
    title: string,
    category: string,
    tags: seq<string>,
    contentLines: seq<string>,
    inContent: bool)

  const CategoryHead: string := "- **カテゴリー**"
  const CategoryPrefix: string := CategoryHead + ":"
  const CategoryPrefixWide: string := CategoryHead + "："
  const TagHead: string := "- **タグ**"
  const TagPrefix: string := TagHead + ":"
  const TagPrefixWide: string := TagHead + "："

  /** The value after the first colon of a metadata line, when there is one. */
  function FieldValue(line: string, isColon: char -> bool): Option<string>
  {
    var parts := Text.SplitWhere(line, isColon);
    if |parts| > 1 then Some(Text.TrimSpaces(parts[1])) else None
  }

  /** The colon `components(separatedBy: ":")` splits at. */
  predicate AsciiColon(c: char) { c == ':' }

  /** Either the ASCII or the full-width colon. */
  predicate AnyColon(c: char) { c == ':' || c == '：' }

  /** A trimmed line whose category or tag prefix ends in the full-width colon. */
  predicate WidePrefixed(t: string)
  {
    Text.HasPrefix(t, CategoryPrefixWide) || Text.HasPrefix(t, TagPrefixWide)
  }

  /**
   * The corrected reading of a metadata line: the full-width colon that ends
   * a category or tag prefix becomes an ASCII one; nothing else changes.
   */
  function WithAsciiColon(t: string): (r: string)
    ensures |r| == |t|
    ensures !WidePrefixed(t) ==> r == t
    ensures Text.HasPrefix(t, CategoryPrefixWide) ==> r == CategoryPrefix + t[|CategoryPrefixWide|..]
    ensures !Text.HasPrefix(t, CategoryPrefixWide) && Text.HasPrefix(t, TagPrefixWide) ==> r == TagPrefix + t[|TagPrefixWide|..]
  {
    if Text.HasPrefix(t, CategoryPrefixWide) then CategoryPrefix + t[|CategoryPrefixWide|..]
    else if Text.HasPrefix(t, TagPrefixWide) then TagPrefix + t[|TagPrefixWide|..]
    else t
  }

  /** How `parseMarkdownSection` reads one line, once trimmed of spaces. */
  datatype LineKind = TitleLine | ContentHeading | CategoryLine | TagLine | Skipped | TextLine

  function KindOf(t: string): LineKind
  {
    if Text.HasPrefix(t, "## ") then TitleLine
    else if Text.HasPrefix(t, "### 内容") then ContentHeading
    else if Text.HasPrefix(t, CategoryPrefix) || Text.HasPrefix(t, CategoryPrefixWide) then CategoryLine
    else if Text.HasPrefix(t, TagPrefix) || Text.HasPrefix(t, TagPrefixWide) then TagLine
    else if t == "---" || Text.HasPrefix(t, "- **") then Skipped
    else TextLine
  }

  /**
   * What one line of a section does to the gathered fields. As written
   * (`corrected` false) a metadata value is taken after an ASCII colon only;
   * corrected, the prefix's full-width colon counts as one.
   */
  function SectionStep(st: SectionState, line: string, corrected: bool): SectionState
  {
    var t := Text.TrimSpaces(line);
    var m := if corrected then WithAsciiColon(t) else t;
    match KindOf(t)
    case TitleLine => st.(title := t[3..])
    case ContentHeading => st.(inContent := true)
    case CategoryLine =>
      (match FieldValue(m, AsciiColon)
       case Some(v) => st.(category := v)
       case None => st)
    case TagLine =>
      (match FieldValue(m, AsciiColon)
       case Some(v) => st.(tags := TrimEach(Text.SplitOn(v, ',')))
       case None => st)
    case Skipped => st
    case TextLine =>
      if (st.inContent || !Text.HasPrefix(t, "###")) && t != [] then st.(contentLines := st.contentLines + [line])
      else st
  }

  /**
   * One line adds at most one content line, the line itself and only when
   * it is not blank; earlier content is kept; only a category line changes
   * the category.
   */
  lemma SectionStepKeeps(st: SectionState, line: string, corrected: bool)
    ensures var r := SectionStep(st, line, corrected);
            |st.contentLines| <= |r.contentLines| <= |st.contentLines| + 1 &&
            r.contentLines[..|st.contentLines|] == st.contentLines &&
            (|r.contentLines| == |st.contentLines| + 1 ==> r.contentLines[|st.contentLines|] == line && Text.TrimSpaces(line) != []) &&
            (r.category != st.category ==> KindOf(Text.TrimSpaces(line)) == CategoryLine)
  {
    var r := SectionStep(st, line, corrected);
    if |r.contentLines| != |st.contentLines| {
      assert r.contentLines == st.contentLines + [line];
    }
  }

  /** `map { $0.trimmingCharacters(in: .whitespaces) }`. */
  function TrimEach(parts: seq<string>): (r: seq<string>)
    ensures |r| == |parts| && forall k :: 0 <= k < |r| ==> r[k] == Text.TrimSpaces(parts[k])
  {
    if parts == [] then [] else [Text.TrimSpaces(parts[0])] + TrimEach(parts[1..])
  }

  const InitialSection: SectionState := SectionState("", OtherCategory, [], [], false)

  /** The fields gathered from the first `n` lines. */
  function SectionFold(lines: seq<string>, n: nat, corrected: bool): (r: SectionState)
    requires n <= |lines|
  {
    if n == 0 then InitialSection
    else SectionStep(SectionFold(lines, n - 1, corrected), lines[n - 1], corrected)
  }

  /** The memo a section makes: none when no content remains. */
  function SectionMemo(st: SectionState, freshId: Uuid, now: Date): (r: Option<QuickMemo>)
    ensures r.None? <==> Text.Trim(Text.Join(st.contentLines, "\n")) == []
    ensures r.Some? ==> r.value.title == st.title && r.value.primaryCategory == st.category && r.value.tags == st.tags
  {
    var content := Text.Trim(Text.Join(st.contentLines, "\n"));
    if content == [] then None
    else Some(NewMemo(freshId, now, st.title, content, st.category, st.tags, DefaultDurationMinutes))
  }

  /** `parseMarkdownSection` as written: a metadata value is taken after an ASCII colon only. */
  function ParseSectionAsWritten(section: string, freshId: Uuid, now: Date): Option<QuickMemo>
  {
    var lines := Text.SplitOn(section, '\n');
    SectionMemo(SectionFold(lines, |lines|, false), freshId, now)
  }

  /** `parseMarkdownSection`, with the full-width colon of a metadata prefix read as a colon. */
  function ParseSection(section: string, freshId: Uuid, now: Date): (r: Option<QuickMemo>)
  {
    var lines := Text.SplitOn(section, '\n');
    SectionMemo(SectionFold(lines, |lines|, true), freshId, now)
  }

  /** Both readings of a line agree unless its prefix ends in the full-width colon. */
  lemma SectionStepAgrees(st: SectionState, line: string)
    requires !WidePrefixed(Text.TrimSpaces(line))
    ensures SectionStep(st, line, false) == SectionStep(st, line, true)
  {
  }

  /** A line whose category or tag prefix ends in an ASCII colon is read alike both ways. */
  lemma AsciiPrefixAgrees(st: SectionState, line: string)
    requires Text.HasPrefix(Text.TrimSpaces(line), CategoryPrefix) || Text.HasPrefix(Text.TrimSpaces(line), TagPrefix)
    ensures SectionStep(st, line, false) == SectionStep(st, line, true)
  {
    var t := Text.TrimSpaces(line);
    if Text.HasPrefix(t, CategoryPrefix) {
      assert t[11] == ':' && t[4] == 'カ';
    } else {
      assert t[8] == ':' && t[4] == 'タ';
    }
    SectionStepAgrees(st, line);
  }

  /** Both readings gather the same fields from lines none of whose prefixes ends in '：'. */
  lemma {:induction false} SectionFoldAgrees(lines: seq<string>, n: nat)
    requires n <= |lines|
    requires forall k :: 0 <= k < n ==> !WidePrefixed(Text.TrimSpaces(lines[k]))
    ensures SectionFold(lines, n, false) == SectionFold(lines, n, true)
  {
    if n > 0 {
      SectionFoldAgrees(lines, n - 1);
      SectionStepAgrees(SectionFold(lines, n - 1, false), lines[n - 1]);
    }
  }

  /**
   * The parser as written and the corrected one differ only on lines whose
   * category or tag prefix ends in the full-width colon.
   */
  lemma AsWrittenAgreesWithoutWidePrefix(section: string, freshId: Uuid, now: Date)
    requires forall line :: line in Text.SplitOn(section, '\n') ==> !WidePrefixed(Text.TrimSpaces(line))
    ensures ParseSectionAsWritten(section, freshId, now) == ParseSection(section, freshId, now)
  {
    var lines := Text.SplitOn(section, '\n');
    assert forall k :: 0 <= k < |lines| ==> lines[k] in lines;
    SectionFoldAgrees(lines, |lines|);
  }

  /**
   * A section with no category line is filed under `その他`, and a section
   * is dropped exactly when none of its lines is content.
   */
  lemma {:induction false} SectionDefaults(lines: seq<string>, n: nat, corrected: bool)
    requires n <= |lines|
    requires forall k :: 0 <= k < n ==> KindOf(Text.TrimSpaces(lines[k])) != CategoryLine
    ensures SectionFold(lines, n, corrected).category == OtherCategory
  {
    if n > 0 {
      SectionDefaults(lines, n - 1, corrected);
    }
  }

  /** A metadata value after the colon: no colon of either kind and no trailing space. */
  predicate PlainValue(v: string)
  {
    (forall i :: 0 <= i < |v| ==> !AnyColon(v[i])) && (v == [] || !Text.IsSpace(v[|v| - 1]))
  }

  /** Text without a separator reads as no value. */
  lemma NoColonNoValue(s: string, isColon: char -> bool)
    requires forall i :: 0 <= i < |s| ==> !isColon(s[i])
    ensures FieldValue(s, isColon) == None
  {
    Text.SplitWhereAppend(s, "", isColon);
    assert s + "" == s;
  }

  /** The value after the only separator of a line is read whole, trimmed of spaces. */
  lemma ValueAfterColon(head: string, c: char, v: string, isColon: char -> bool)
    requires forall i :: 0 <= i < |head| ==> !isColon(head[i])
    requires isColon(c) && forall i :: 0 <= i < |v| ==> !isColon(v[i])
    ensures FieldValue(head + [c] + v, isColon) == Some(Text.TrimSpaces(v))
  {
    Text.SplitWhereAppend(v, "", isColon);
    assert v + "" == v;
    var rest := [c] + v;
    assert rest[0] == c && rest[1..] == v;
    Text.SplitWhereAppend(head, rest, isColon);
    assert head + [c] + v == head + rest;
  }

  lemma CategoryPrefixes()
    ensures CategoryPrefix == CategoryHead + [':'] && CategoryPrefixWide == CategoryHead + ['：']
    ensures forall i :: 0 <= i < |CategoryHead| ==> !AnyColon(CategoryHead[i])
  {
  }

  lemma CategoryHeadChars()
    ensures |CategoryHead| == 11 && CategoryHead[0] == '-'
  {
  }

  /** No character of `a + b` satisfies `p` when none of `a` or of `b` does. */
  lemma ConcatFree(a: string, b: string, p: char -> bool)
    requires forall i :: 0 <= i < |a| ==> !p(a[i])
    requires forall i :: 0 <= i < |b| ==> !p(b[i])
    ensures forall i :: 0 <= i < |a + b| ==> !p((a + b)[i])
  {
    forall i | 0 <= i < |a + b| ensures !p((a + b)[i]) {
      if i >= |a| { assert (a + b)[i] == b[i - |a|]; }
    }
  }

  /** A category line with a plain value is not trimmed and is read as a category line. */
  lemma CategoryLineKind(c: char, v: string)
    requires AnyColon(c) && PlainValue(v)
    ensures Text.TrimSpaces(CategoryHead + [c] + v) == CategoryHead + [c] + v
    ensures KindOf(CategoryHead + [c] + v) == CategoryLine
  {
    CategoryLineUntrimmed(c, v);
    CategoryLineIsCategory(c, v);
  }

  lemma CategoryLineUntrimmed(c: char, v: string)
    requires AnyColon(c) && PlainValue(v)
    ensures Text.TrimSpaces(CategoryHead + [c] + v) == CategoryHead + [c] + v
  {
    CategoryHeadChars();
    var line := CategoryHead + [c] + v;
    assert line[0] == '-';
    if v == [] {
      assert line[|line| - 1] == c;
    } else {
      assert line[|line| - 1] == v[|v| - 1];
    }
    Text.TrimByKeeps(line, Text.Whitespaces);
  }

  lemma CategoryLineIsCategory(c: char, v: string)
    requires AnyColon(c)
    ensures KindOf(CategoryHead + [c] + v) == CategoryLine
  {
    CategoryHeadChars();
    var head := CategoryHead + [c];
    var line := head + v;
    assert CategoryHead + [c] + v == line;
    assert line[0] == '-';
    assert line[..12] == head;
    assert head == CategoryPrefix || head == CategoryPrefixWide;
    Text.FirstCharNotPrefix(line, "## ");
    Text.FirstCharNotPrefix(line, "### 内容");
  }

  /**
   * As written, a category line with a full-width colon is recognised as a
   * category line but its value is never read: the category stays as it was.
   */
  lemma WideCategoryIgnored(st: SectionState, v: string)
    requires PlainValue(v)
    ensures SectionStep(st, CategoryPrefixWide + v, false) == st
  {
    CategoryPrefixes();
    CategoryLineKind('：', v);
    ConcatFree(CategoryHead, ['：'], AsciiColon);
    ConcatFree(CategoryPrefixWide, v, AsciiColon);
    NoColonNoValue(CategoryPrefixWide + v, AsciiColon);
  }

  /** Corrected, a category line sets the category to its value after either colon. */
  lemma CategoryEitherColon(st: SectionState, c: char, v: string)
    requires AnyColon(c) && PlainValue(v)
    ensures SectionStep(st, CategoryHead + [c] + v, true) == st.(category := Text.TrimSpaces(v))
  {
    CategoryPrefixes();
    CategoryLineKind(c, v);
    var t := CategoryHead + [c] + v;
    assert WithAsciiColon(t) == CategoryHead + [':'] + v by {
      if c == '：' {
        assert t == CategoryPrefixWide + v;
        assert t[..|CategoryPrefixWide|] == CategoryPrefixWide;
        assert t[|CategoryPrefixWide|..] == v;
      } else {
        assert t[11] == ':' && t[4] == 'カ';
      }
    }
    ValueAfterColon(CategoryHead, ':', v, AsciiColon);
  }

  /** `parseMarkdownSection`: the lines are read in order, then the gathered fields make the memo. */
  method ParseMarkdownSection(section: string, freshId: Uuid, now: Date) returns (r: Option<QuickMemo>)
    ensures r == ParseSection(section, freshId, now)
  {
    var lines := Text.SplitOn(section, '\n');
    var st := GatherFields(lines);
    r := SectionMemo(st, freshId, now);
  }

  /** The loop of `parseMarkdownSection` over the lines of a section. */
  method GatherFields(lines: seq<string>) returns (st: SectionState)
    ensures st == SectionFold(lines, |lines|, true)
  {
    st := InitialSection;
    var i := 0;
    while i < |lines|
      invariant 0 <= i <= |lines|
      invariant st == SectionFold(lines, i, true)
    {
      st := SectionStep(st, lines[i], true);
      i := i + 1;
    }
  }

  /**
   * The text of section `index` that `importMarkdownData` parses, `None`
   * when it skips the section: the first section loses its `# ` title line
   * and is skipped when it is the export header or empty; any section is
   * skipped when it trims to nothing or to a rule.
   */
  function SectionText(index: nat, section: string): (r: Option<string>)
    ensures r.Some? ==> Text.Trim(r.value) != [] && Text.Trim(r.value) != "---"
    ensures index > 0 ==> (r.Some? <==> Text.Trim(section) != [] && Text.Trim(section) != "---")
    ensures index > 0 && r.Some? ==> r.value == section
    ensures index == 0 && r.Some? ==> !Text.Contains(r.value, "Exported on")
  {
    var dropped :=
      if index == 0 && Text.HasPrefix(section, "# ") then
        var lines := Text.SplitOn(section, '\n');
        if |lines| > 1 then Some(Text.Join(lines[1..], "\n")) else None
      else Some(section);
    match dropped
    case None => None
    case Some(t) =>
      if index == 0 && (Text.Contains(t, "Exported on") || t == []) then None
      else if Text.Trim(t) == [] || Text.Trim(t) == "---" then None
      else Some(t)
  }

  /** The memo section `index` gives, if any. */
  function SectionResult(newId: nat -> Uuid, now: Date, index: nat, section: string): Option<QuickMemo>
  {
    match SectionText(index, section)
    case None => None
    case Some(t) => ParseSection("## " + t, newId(index), now)
  }

  /** The memos of the first `n` sections, in file order. */
  function SectionsMemos(newId: nat -> Uuid, now: Date, sections: seq<string>, n: nat): (r: seq<QuickMemo>)
    requires n <= |sections|
    ensures |r| <= n
    ensures forall k :: 0 <= k < |r| ==> r[k].content != []
  {
    if n == 0 then []
    else
      var prev := SectionsMemos(newId, now, sections, n - 1);
      match SectionResult(newId, now, n - 1, sections[n - 1])
      case None => prev
      case Some(m) => prev + [m]
  }

  /** One more section adds its memo, if it gives one. */
  lemma SectionsMemosStep(newId: nat -> Uuid, now: Date, sections: seq<string>, i: nat)
    requires i < |sections|
    ensures var prev := SectionsMemos(newId, now, sections, i);
            var res := SectionResult(newId, now, i, sections[i]);
            SectionsMemos(newId, now, sections, i + 1) == if res.Some? then prev + [res.value] else prev
  {
  }

  const SectionSeparator: string := "\n## "

  /**
   * `importMarkdownData` on decoded text: blank text is an error; otherwise
   * the memos of the sections, or, when no section gives one, the whole
   * trimmed text as a single memo.
   */
  function ImportMarkdownText(newId: nat -> Uuid, now: Date, text: string): (r: Result<seq<QuickMemo>, ExportError>)
    ensures r.Err? <==> Text.Trim(text) == []
    ensures r.Err? ==> r.error == NoData
    ensures r.Ok? ==> r.value != [] && forall k :: 0 <= k < |r.value| ==> r.value[k].content != []
  {
    if Text.Trim(text) == [] then Err(NoData)
    else
      var sections := Text.SplitOnString(text, SectionSeparator);
      var memos := SectionsMemos(newId, now, sections, |sections|);
      if memos == [] then Ok([NewMemo(newId(|sections|), now, "", Text.Trim(text), OtherCategory, [], DefaultDurationMinutes)])
      else Ok(memos)
  }

  /** Markdown in which no section holds content imports as the plain-text importer would. */
  lemma MarkdownFallsBackToText(newId: nat -> Uuid, now: Date, text: string)
    requires var sections := Text.SplitOnString(text, SectionSeparator);
             SectionsMemos(newId, now, sections, |sections|) == []
    ensures ImportMarkdownText(newId, now, text) == ImportText(newId(|Text.SplitOnString(text, SectionSeparator)|), now, text)
  {
  }

  method ImportMarkdownData(newId: nat -> Uuid, now: Date, text: string) returns (r: Result<seq<QuickMemo>, ExportError>)
    ensures r == ImportMarkdownText(newId, now, text)
  {
    if Text.Trim(text) == [] {
      return Err(NoData);
    }
    var sections := Text.SplitOnString(text, SectionSeparator);
    var memos := ParseSections(newId, now, sections);
    if memos == [] {
      memos := [NewMemo(newId(|sections|), now, "", Text.Trim(text), OtherCategory, [], DefaultDurationMinutes)];
    }
    return Ok(memos);
  }

  /** The loop of `importMarkdownData` over the sections. */
  method ParseSections(newId: nat -> Uuid, now: Date, sections: seq<string>) returns (memos: seq<QuickMemo>)
    ensures memos == SectionsMemos(newId, now, sections, |sections|)
  {
    memos := [];
    for i := 0 to |sections|
      invariant memos == SectionsMemos(newId, now, sections, i)
    {
      var parsed := ParseSectionAt(newId, now, i, sections[i]);
      SectionsMemosStep(newId, now, sections, i);
      if parsed.Some? {
        memos := memos + [parsed.value];
      }
    }
  }

  /** The body of that loop: the section's text, if kept, parsed as a section. */
  method ParseSectionAt(newId: nat -> Uuid, now: Date, index: nat, section: string) returns (parsed: Option<QuickMemo>)
    ensures parsed == SectionResult(newId, now, index, section)
  {
    var t := SectionText(index, section);
    parsed := None;
    if t.Some? {
      parsed := ParseMarkdownSection("## " + t.value, newId(index), now);
    }
  }

  // ---- JSON ----

  /** `ExportMemo`: a memo as the JSON export writes it. */
  datatype ExportMemo = ExportMemo(
    id: string,
    title: string,
    content: string,
    category: string,
    tags: seq<string>,
    timestamp: Date,
    lastModified: Option<Date>,
    calendarEventId: Option<string>,
    durationMinutes: Option<int>)

  /** The entry `createJSONData` writes for a memo. */
  function ToExportMemo(uuidString: Uuid -> string, m: QuickMemo): (e: ExportMemo)
    ensures e.lastModified.Some? && e.durationMinutes.Some?
  {
    ExportMemo(uuidString(m.id), m.title, m.content, m.primaryCategory, m.tags,
               m.createdAt, Some(m.updatedAt), m.calendarEventId, Some(m.durationMinutes))
  }

  /**
   * The memo `importJSONData` makes of an entry: a fresh identifier when
   * the stored one does not parse, the creation date when no modification
   * date was stored, 30 minutes when no duration was.
   */
  function FromExportMemo(parseUuid: string -> Option<Uuid>, freshId: Uuid, e: ExportMemo): (m: QuickMemo)
    ensures parseUuid(e.id).None? ==> m.id == freshId
    ensures e.lastModified.None? ==> m.updatedAt == m.createdAt
    ensures e.durationMinutes.None? ==> m.durationMinutes == DefaultDurationMinutes
    ensures m.title == e.title && m.content == e.content && m.primaryCategory == e.category && m.tags == e.tags
  {
    QuickMemo(parseUuid(e.id).GetOr(freshId), e.title, e.content, e.category, e.tags, e.timestamp,
              e.lastModified.GetOr(e.timestamp), e.calendarEventId, e.durationMinutes.GetOr(DefaultDurationMinutes))
  }

  /** Writing a memo as an entry and reading it back gives the memo unchanged. */
  lemma ExportMemoRoundTrip(f: Formats, freshId: Uuid, m: QuickMemo)
    requires Inverse(f)
    ensures FromExportMemo(f.parseUuid, freshId, ToExportMemo(f.uuidString, m)) == m
  {
    assert f.parseUuid(f.uuidString(m.id)) == Some(m.id);
  }

  /** `importJSONData`: the decoded entries, each made a memo; data that does not decode is an error. */
  function ImportJson(decodeJson: seq<byte> -> Option<seq<ExportMemo>>, parseUuid: string -> Option<Uuid>,
                      newId: nat -> Uuid, data: seq<byte>): (r: Result<seq<QuickMemo>, ImportError>)
    ensures r.Err? <==> decodeJson(data).None?
    ensures r.Err? ==> r.error == DecodingFailed
    ensures r.Ok? ==> |r.value| == |decodeJson(data).value|
    ensures r.Ok? ==> forall k :: 0 <= k < |r.value| ==> r.value[k] == FromExportMemo(parseUuid, newId(k), decodeJson(data).value[k])
  {
    match decodeJson(data)
    case None => Err(DecodingFailed)
    case Some(entries) => Ok(seq(|entries|, k requires 0 <= k < |entries| => FromExportMemo(parseUuid, newId(k), entries[k])))
  }

  /** Exporting memos to JSON and importing the file gives the same memos back, when the encoder and decoder agree. */
  lemma JsonRoundTrip(decodeJson: seq<byte> -> Option<seq<ExportMemo>>, f: Formats, newId: nat -> Uuid,
                      data: seq<byte>, memos: seq<QuickMemo>)
    requires Inverse(f)
    requires decodeJson(data) == Some(seq(|memos|, k requires 0 <= k < |memos| => ToExportMemo(f.uuidString, memos[k])))
    ensures ImportJson(decodeJson, f.parseUuid, newId, data) == Ok(memos)
  {
    var r := ImportJson(decodeJson, f.parseUuid, newId, data);
    forall k | 0 <= k < |memos| ensures r.value[k] == memos[k] {
      ExportMemoRoundTrip(f, newId(k), memos[k]);
    }
    assert r.value == memos;
  }

  // ---- choosing the importer ----

  /** What the importers need besides the bytes. */
  datatype Importers = Importers(
    decode: (Encoding, seq<byte>) -> Option<string>,
    decodeJson: seq<byte> -> Option<seq<ExportMemo>>,
    formats: Formats,
    newId: nat -> Uuid,
    now: Date)

  function Lift(r: Result<seq<QuickMemo>, ExportError>): (q: Result<seq<QuickMemo>, ImportError>)
    ensures q.Ok? <==> r.Ok?
    ensures q.Ok? ==> q.value == r.value
    ensures q.Err? ==> q.error == Export(r.error)
  {
    match r
    case Ok(v) => Ok(v)
    case Err(e) => Err(Export(e))
  }

  /** Decodes the bytes as text, then applies an importer to the text. */
  function OnText(imp: Importers, data: seq<byte>, importer: string -> Result<seq<QuickMemo>, ExportError>): (r: Result<seq<QuickMemo>, ImportError>)
    ensures DecodeText(imp.decode, data).Err? ==> r == Err(Export(EncodingError))
    ensures DecodeText(imp.decode, data).Ok? ==> r == Lift(importer(DecodeText(imp.decode, data).value))
  {
    match DecodeText(imp.decode, data)
    case Err(e) => Err(Export(e))
    case Ok(text) => Lift(importer(text))
  }

  /**
   * `importCSVData` decodes the bytes as UTF-8 only, with no other encoding
   * tried and the byte order mark left to the decoder.
   */
  function CsvOnUtf8(imp: Importers, data: seq<byte>): (r: Result<seq<QuickMemo>, ImportError>)
    ensures imp.decode(Utf8, data).None? ==> r == Err(Export(EncodingError))
    ensures imp.decode(Utf8, data).Some? ==> r == Lift(ImportCsvText(imp.formats, imp.newId, imp.now, imp.decode(Utf8, data).value))
  {
    match imp.decode(Utf8, data)
    case None => Err(Export(EncodingError))
    case Some(text) => Lift(ImportCsvText(imp.formats, imp.newId, imp.now, text))
  }

  /** The importer `importMemos` picks for a file extension, compared in lower case. */
  datatype Format = Json | CsvFile | Markdown | PlainText

  function FormatOf(ext: string): (r: Format)
    ensures r == Json <==> Text.LowerAscii(ext) == "json"
    ensures r == CsvFile <==> Text.LowerAscii(ext) == "csv"
    ensures r == Markdown <==> Text.LowerAscii(ext) in {"md", "markdown"}
  {
    var lower := Text.LowerAscii(ext);
    if lower == "json" then Json
    else if lower == "csv" then CsvFile
    else if lower == "md" || lower == "markdown" then Markdown
    else PlainText
  }

  /** `importMemos`: the data of a file, imported by the importer its extension names; any other extension is read as plain text. */
  function ImportMemos(imp: Importers, ext: string, data: seq<byte>): (r: Result<seq<QuickMemo>, ImportError>)
    ensures FormatOf(ext) == Json ==> r == ImportJson(imp.decodeJson, imp.formats.parseUuid, imp.newId, data)
    ensures FormatOf(ext) == CsvFile ==> r == CsvOnUtf8(imp, data)
    ensures FormatOf(ext) == Markdown ==> r == OnText(imp, data, text => ImportMarkdownText(imp.newId, imp.now, text))
    ensures FormatOf(ext) == PlainText ==> r == OnText(imp, data, text => ImportText(imp.newId(0), imp.now, text))
  {
    match FormatOf(ext)
    case Json => ImportJson(imp.decodeJson, imp.formats.parseUuid, imp.newId, data)
    case CsvFile => CsvOnUtf8(imp, data)
    case Markdown => OnText(imp, data, text => ImportMarkdownText(imp.newId, imp.now, text))
    case PlainText => OnText(imp, data, text => ImportText(imp.newId(0), imp.now, text))
  }
}
