/**
 * The CSV field codec of the export manager: quoting a field on export
 * (RFC 4180 section 2, rules 6 and 7) and the character-level line parser
 * used on import.
 */
module Csv {
  import Text

  const Quote: char := '"'
  const Comma: char := ','

  /** A field is quoted when it holds a comma, a double quote or a line feed. */
  predicate NeedsQuotes(field: string)
  {
    Comma in field || Quote in field || '\n' in field
  }

  /** `replacingOccurrences(of: "\"", with: "\"\"")`. */
  function DoubleQuotes(s: string): (r: string)
    ensures |r| >= |s|
    ensures forall c :: c in r ==> c in s || c == Quote
  {
    if s == [] then []
    else (if s[0] == Quote then [Quote, Quote] else [s[0]]) + DoubleQuotes(s[1..])
  }

  /** `escapeCSVField`. */
  function EscapeField(field: string): (r: string)
    ensures !NeedsQuotes(field) ==> r == field
    ensures NeedsQuotes(field) ==> |r| >= |field| + 2 && r[0] == Quote && r[|r| - 1] == Quote
    ensures forall c :: c in r ==> c in field || c == Quote
  {
    if NeedsQuotes(field) then [Quote] + DoubleQuotes(field) + [Quote] else field
  }

  /** What `fields.map(escapeCSVField).joined(separator: ",")` writes. */
  function EscapeRow(fields: seq<string>): (r: string)
    ensures |fields| >= 2 ==> Comma in r
  {
    if |fields| == 0 then ""
    else if |fields| == 1 then EscapeField(fields[0])
    else EscapeField(fields[0]) + [Comma] + EscapeRow(fields[1..])
  }

  /** A written row holds only commas, quotes and characters of its fields. */
  lemma {:induction false} EscapeRowChars(fields: seq<string>)
    ensures forall c :: c in EscapeRow(fields) ==> c == Comma || c == Quote || exists k :: 0 <= k < |fields| && c in fields[k]
  {
    if |fields| >= 2 {
      EscapeRowChars(fields[1..]);
      forall c | c in EscapeRow(fields[1..]) && c != Comma && c != Quote
        ensures exists k :: 0 <= k < |fields| && c in fields[k]
      {
        {
          var k :| 0 <= k < |fields[1..]| && c in fields[1..][k];
          assert c in fields[k + 1];
        }
      }
    }
  }

  /**
   * The state machine of `parseCSVLine` on the characters still to read:
   * `inQuotes` is the quote flag, `current` the field being built and
   * `fields` the fields already closed. Inside quotes a doubled quote is a
   * literal quote; any other quote flips the flag; a comma outside quotes
   * closes the field.
   */
  function Scan(s: string, inQuotes: bool, current: string, fields: seq<string>): (r: seq<string>)
    ensures |r| > |fields| && r[..|fields|] == fields
    decreases |s|
  {
    if s == [] then fields + [current]
    else if s[0] == Quote then
      if inQuotes && |s| > 1 && s[1] == Quote then Scan(s[2..], inQuotes, current + [Quote], fields)
      else Scan(s[1..], !inQuotes, current, fields)
    else if s[0] == Comma && !inQuotes then
      var r := Scan(s[1..], inQuotes, "", fields + [current]);
      assert r[..|fields|] == r[..|fields| + 1][..|fields|];
      r
    else Scan(s[1..], inQuotes, current + [s[0]], fields)
  }

  /** `parseCSVLine(line)`: one field more than the line has commas outside quotes. */
  function ParseLine(line: string): (r: seq<string>)
    ensures |r| >= 1
    ensures |r| == 1 + OutsideCommas(line, false)
  {
    ScanCount(line, false, "", []);
    Scan(line, false, "", [])
  }

  method ParseCsvLine(line: string) returns (fields: seq<string>)
    ensures fields == ParseLine(line)
  {
    fields := [];
    var current := "";
    var insideQuotes := false;
    var i := 0;
    while i < |line|
      invariant 0 <= i <= |line|
      invariant Scan(line[i..], insideQuotes, current, fields) == ParseLine(line)
    {
      var c := line[i];
      if c == Quote {
        if insideQuotes && i + 1 < |line| && line[i + 1] == Quote {
          assert line[i..][2..] == line[i + 2..];
          current := current + [Quote];
          i := i + 1;
        } else {
          assert line[i..][1..] == line[i + 1..];
          insideQuotes := !insideQuotes;
        }
      } else if c == Comma && !insideQuotes {
        assert line[i..][1..] == line[i + 1..];
        fields := fields + [current];
        current := "";
      } else {
        assert line[i..][1..] == line[i + 1..];
        current := current + [c];
      }
      i := i + 1;
    }
    fields := fields + [current];
  }

  /** A field that needs no quotes passes through the scanner character by character. */
  lemma {:induction false} ScanPlain(f: string, rest: string, current: string, fields: seq<string>)
    requires Quote !in f && Comma !in f
    ensures Scan(f + rest, false, current, fields) == Scan(rest, false, current + f, fields)
    decreases |f|
  {
    if f != [] {
      assert f[0] in f && (f + rest)[0] == f[0];
      assert (f + rest)[1..] == f[1..] + rest;
      ScanPlain(f[1..], rest, current + [f[0]], fields);
      assert current + [f[0]] + f[1..] == current + f;
    } else {
      assert f + rest == rest && current + f == current;
    }
  }

  /**
   * Inside quotes, a doubled-quote body followed by the closing quote yields
   * the original text and leaves the quotes, provided the closing quote is
   * followed by the end of the line or a comma.
   */
  lemma {:induction false} ScanQuoted(f: string, rest: string, current: string, fields: seq<string>)
    requires rest == [] || rest[0] == Comma
    ensures Scan(DoubleQuotes(f) + [Quote] + rest, true, current, fields) == Scan(rest, false, current + f, fields)
    decreases |f|
  {
    if f == [] {
      assert DoubleQuotes(f) + [Quote] + rest == [Quote] + rest;
      ScanClosingQuote(rest, current, fields);
      assert current + f == current;
    } else {
      ScanQuoted(f[1..], rest, current + [f[0]], fields);
      ScanQuotedCons(f, rest, current, fields);
    }
  }

  /** One character of the field, written inside quotes, is read back. */
  lemma ScanQuotedCons(f: string, rest: string, current: string, fields: seq<string>)
    requires f != []
    requires Scan(DoubleQuotes(f[1..]) + [Quote] + rest, true, current + [f[0]], fields)
             == Scan(rest, false, current + [f[0]] + f[1..], fields)
    ensures Scan(DoubleQuotes(f) + [Quote] + rest, true, current, fields) == Scan(rest, false, current + f, fields)
  {
    assert current + [f[0]] + f[1..] == current + f;
    var t := DoubleQuotes(f[1..]) + [Quote] + rest;
    if f[0] == Quote {
      DoubleQuotesQuote(f, rest);
      ScanDoubledQuote(t, current, fields);
    } else {
      DoubleQuotesOther(f, rest);
      ScanQuotedChar(f[0], t, current, fields);
    }
  }

  lemma DoubleQuotesQuote(f: string, rest: string)
    requires f != [] && f[0] == Quote
    ensures DoubleQuotes(f) + [Quote] + rest == [Quote, Quote] + (DoubleQuotes(f[1..]) + [Quote] + rest)
  {
  }

  lemma DoubleQuotesOther(f: string, rest: string)
    requires f != [] && f[0] != Quote
    ensures DoubleQuotes(f) + [Quote] + rest == [f[0]] + (DoubleQuotes(f[1..]) + [Quote] + rest)
  {
  }

  /** A quote not followed by another closes the quotes. */
  lemma ScanClosingQuote(rest: string, current: string, fields: seq<string>)
    requires rest == [] || rest[0] == Comma
    ensures Scan([Quote] + rest, true, current, fields) == Scan(rest, false, current, fields)
  {
    assert ([Quote] + rest)[1..] == rest;
  }

  /** Inside quotes a doubled quote is one literal quote. */
  lemma ScanDoubledQuote(t: string, current: string, fields: seq<string>)
    ensures Scan([Quote, Quote] + t, true, current, fields) == Scan(t, true, current + [Quote], fields)
  {
    assert ([Quote, Quote] + t)[2..] == t;
  }

  /** Inside quotes any other character is part of the field. */
  lemma ScanQuotedChar(c: char, t: string, current: string, fields: seq<string>)
    requires c != Quote
    ensures Scan([c] + t, true, current, fields) == Scan(t, true, current + [c], fields)
  {
    assert ([c] + t)[1..] == t;
  }

  lemma ScanField(f: string, rest: string, fields: seq<string>)
    requires rest == [] || rest[0] == Comma
    ensures Scan(EscapeField(f) + rest, false, "", fields) == Scan(rest, false, f, fields)
  {
    if NeedsQuotes(f) {
      var t := DoubleQuotes(f) + [Quote] + rest;
      assert EscapeField(f) + rest == [Quote] + t;
      assert ([Quote] + t)[1..] == t;
      ScanQuoted(f, rest, "", fields);
      assert "" + f == f;
    } else {
      ScanPlain(f, rest, "", fields);
      assert "" + f == f;
    }
  }

  /**
   * The export/import round trip at the level of one line: parsing a
   * non-empty list of fields, each escaped and joined with commas, gives
   * the fields back, whatever characters they hold.
   */
  lemma {:induction false} ParseEscapeRow(fs: seq<string>, fields: seq<string>)
    requires |fs| >= 1
    ensures Scan(EscapeRow(fs), false, "", fields) == fields + fs
    decreases |fs|
  {
    if |fs| == 1 {
      ScanField(fs[0], [], fields);
      assert EscapeRow(fs) == EscapeField(fs[0]) + [];
    } else {
      var rest := [Comma] + EscapeRow(fs[1..]);
      assert EscapeRow(fs) == EscapeField(fs[0]) + rest;
      ScanField(fs[0], rest, fields);
      assert rest[1..] == EscapeRow(fs[1..]);
      ParseEscapeRow(fs[1..], fields + [fs[0]]);
      assert fields + [fs[0]] + fs[1..] == fields + fs;
    }
  }

  lemma ParseLineEscapeRow(fs: seq<string>)
    requires |fs| >= 1
    ensures ParseLine(EscapeRow(fs)) == fs
  {
    ParseEscapeRow(fs, []);
  }

  /**
   * On a line without double quotes the parser is a plain split at every
   * comma, so the number of fields is the number of commas plus one.
   */
  lemma {:induction false} ScanUnquoted(s: string, current: string, fields: seq<string>)
    requires Quote !in s
    ensures Scan(s, false, current, fields) == fields + [current + Text.SplitOn(s, Comma)[0]] + Text.SplitOn(s, Comma)[1..]
    decreases |s|
  {
    if s != [] {
      assert s[0] in s;
      if s[0] == Comma {
        ScanUnquoted(s[1..], "", fields + [current]);
      } else {
        ScanUnquoted(s[1..], current + [s[0]], fields);
      }
      ScanUnquotedCons(s, current, fields);
    } else {
      assert Text.SplitOn(s, Comma) == [""];
      assert current + "" == current;
    }
  }

  /** One unquoted character: a comma closes the field, anything else but a quote extends it. */
  lemma ScanUnquotedCons(s: string, current: string, fields: seq<string>)
    requires s != [] && s[0] != Quote
    requires s[0] == Comma ==>
      Scan(s[1..], false, "", fields + [current])
      == fields + [current] + ["" + Text.SplitOn(s[1..], Comma)[0]] + Text.SplitOn(s[1..], Comma)[1..]
    requires s[0] != Comma ==>
      Scan(s[1..], false, current + [s[0]], fields)
      == fields + [current + [s[0]] + Text.SplitOn(s[1..], Comma)[0]] + Text.SplitOn(s[1..], Comma)[1..]
    ensures Scan(s, false, current, fields) == fields + [current + Text.SplitOn(s, Comma)[0]] + Text.SplitOn(s, Comma)[1..]
  {
    var rest := Text.SplitOn(s[1..], Comma);
    SplitOnCons(s, Comma);
    if s[0] == Comma {
      assert "" + rest[0] == rest[0];
      assert current + "" == current;
      assert fields + [current] + [rest[0]] + rest[1..] == fields + [current] + rest;
    } else {
      assert current + [s[0]] + rest[0] == current + ([s[0]] + rest[0]);
    }
  }

  /** Splitting a non-empty text: its first character either separates or starts the first piece. */
  lemma SplitOnCons(s: string, c: char)
    requires s != []
    ensures var rest := Text.SplitOn(s[1..], c);
            Text.SplitOn(s, c) == if s[0] == c then [""] + rest else [[s[0]] + rest[0]] + rest[1..]
  {
    assert Text.SplitOn(s[1..], c) == Text.SplitWhere(s[1..], x => x == c);
  }

  lemma ParseLineUnquoted(line: string)
    requires Quote !in line
    ensures ParseLine(line) == Text.SplitOn(line, Comma)
  {
    ScanUnquoted(line, "", []);
    var r := Text.SplitOn(line, Comma);
    assert "" + r[0] == r[0];
    assert [r[0]] + r[1..] == r;
  }

  /**
   * The commas of `s` that lie outside quotes, when reading starts with the
   * quote flag `odd`: every quote flips the flag (a doubled quote inside
   * quotes flips it twice, leaving it as it was).
   */
  function OutsideCommas(s: string, odd: bool): nat
    decreases |s|
  {
    if s == [] then 0
    else if s[0] == Quote then OutsideCommas(s[1..], !odd)
    else (if s[0] == Comma && !odd then 1 else 0) + OutsideCommas(s[1..], odd)
  }

  /** Scanning closes one field per comma outside quotes, and then the last one. */
  lemma {:induction false} ScanCount(s: string, inQuotes: bool, current: string, fields: seq<string>)
    ensures |Scan(s, inQuotes, current, fields)| == |fields| + 1 + OutsideCommas(s, inQuotes)
    decreases |s|
  {
    if s == [] {
    } else if s[0] == Quote {
      if inQuotes && |s| > 1 && s[1] == Quote {
        ScanCount(s[2..], inQuotes, current + [Quote], fields);
        assert s[1..][1..] == s[2..];
      } else {
        ScanCount(s[1..], !inQuotes, current, fields);
      }
    } else if s[0] == Comma && !inQuotes {
      ScanCount(s[1..], inQuotes, "", fields + [current]);
    } else {
      ScanCount(s[1..], inQuotes, current + [s[0]], fields);
    }
  }
}
