// The dashboard's CSV export: the header line, one comma-joined row per
// report, and the lines joined by newlines behind a `data:` URI prefix.
// The date formatter (`toLocaleString`) is a parameter of the model.

module CsvExport {
  import opened Types

  // ---- Joining and splitting --------------------------------------------------

  /** `parts.join(sep)`: the parts with one separator between neighbours. */
  function Join(parts: seq<string>, sep: char): string
  {
    if |parts| == 0 then ""
    else if |parts| == 1 then parts[0]
    else parts[0] + [sep] + Join(parts[1..], sep)
  }

  /** The index of the first `c` in `s`, or `|s|` when there is none. */
  function IndexOf(s: string, c: char): (k: nat)
    ensures k <= |s|
    ensures k < |s| ==> s[k] == c
  {
    if s == [] then 0
    else if s[0] == c then 0
    else 1 + IndexOf(s[1..], c)
  }

  /** No `c` comes before the index `IndexOf` finds. */
  lemma {:induction false} IndexOfFirst(s: string, c: char)
    ensures forall i :: 0 <= i < IndexOf(s, c) ==> s[i] != c
  {
    if s != [] && s[0] != c {
      IndexOfFirst(s[1..], c);
      assert forall i :: 1 <= i < |s| ==> s[i] == s[1..][i - 1];
    }
  }

  /** Cutting `s` at every `sep`, as a reader of the file does. */
  function Split(s: string, sep: char): (r: seq<string>)
    ensures |r| >= 1
    decreases |s|
  {
    var k := IndexOf(s, sep);
    if k == |s| then [s] else [s[..k]] + Split(s[k + 1..], sep)
  }

  /** The first separator of `p + [sep] + rest` is the one after `p` when `p` has none. */
  lemma IndexOfAfter(p: string, sep: char, rest: string)
    requires sep !in p
    ensures IndexOf(p + [sep] + rest, sep) == |p|
  {
    var s := p + [sep] + rest;
    IndexOfFirst(s, sep);
    assert s[|p|] == sep;
    assert forall i :: 0 <= i < |p| ==> s[i] == p[i];
  }

  /** Splitting undoes joining when no part holds the separator. */
  lemma {:induction false} SplitJoin(parts: seq<string>, sep: char)
    requires |parts| >= 1
    requires forall i :: 0 <= i < |parts| ==> sep !in parts[i]
    ensures Split(Join(parts, sep), sep) == parts
  {
    if |parts| == 1 {
      assert IndexOf(parts[0], sep) == |parts[0]|;
    } else {
      var rest := Join(parts[1..], sep);
      IndexOfAfter(parts[0], sep, rest);
      var s := parts[0] + [sep] + rest;
      assert s[..|parts[0]|] == parts[0];
      assert s[|parts[0]| + 1..] == rest;
      SplitJoin(parts[1..], sep);
      assert parts == [parts[0]] + parts[1..];
    }
  }

  /** A character that is neither the separator nor in any part is not in the join. */
  lemma {:induction false} JoinAvoids(parts: seq<string>, sep: char, c: char)
    requires c != sep
    requires forall i :: 0 <= i < |parts| ==> c !in parts[i]
    ensures c !in Join(parts, sep)
  {
    if |parts| > 1 {
      JoinAvoids(parts[1..], sep, c);
    }
  }

  // ---- Numbers ---------------------------------------------------------------

  predicate IsDigits(s: string)
  {
    forall i :: 0 <= i < |s| ==> '0' <= s[i] <= '9'
  }

  function DigitChar(d: nat): (c: char)
    requires d < 10
    ensures '0' <= c <= '9'
  {
    (48 + d) as char
  }

  /** `String(n)` for a count: its decimal digits, with no leading zero. */
  function NatToString(n: nat): (s: string)
    ensures |s| >= 1 && IsDigits(s)
    ensures |s| > 1 ==> s[0] != '0'
  {
    if n < 10 then [DigitChar(n)] else NatToString(n / 10) + [DigitChar(n % 10)]
  }

  /** The value a reader gives a cell of decimal digits. */
  function ParseNat(s: string): nat
    requires IsDigits(s)
  {
    if s == [] then 0 else 10 * ParseNat(s[..|s| - 1]) + (s[|s| - 1] as int - 48)
  }

  /** Reading a printed count gives the count back. */
  lemma {:induction false} ParseNatToString(n: nat)
    ensures ParseNat(NatToString(n)) == n
  {
    if n >= 10 {
      var s := NatToString(n);
      assert s[..|s| - 1] == NatToString(n / 10);
      ParseNatToString(n / 10);
    }
  }

  // ---- Reading a record as RFC 4180 does ------------------------------------

  /**
   * The content of a quoted field whose opening quote has been read: up to the
   * first lone quote, a doubled quote standing for one quote. Returns the
   * content and how much of `s` the field used, its closing quote included.
   */
  function QuotedEnd(s: string): (r: (string, nat))
    ensures r.1 <= |s|
  {
    if s == [] then ([], 0)
    else if s[0] == '"' then
      if |s| > 1 && s[1] == '"' then
        var t := QuotedEnd(s[2..]);
        (['"'] + t.0, t.1 + 2)
      else ([], 1)
    else
      var t := QuotedEnd(s[1..]);
      ([s[0]] + t.0, t.1 + 1)
  }

  /**
   * The fields of one record: a field is quoted when it starts with a quote
   * (anything between its closing quote and the next comma is kept), and
   * otherwise runs to the next comma.
   */
  function ParseRecord(s: string): (fields: seq<string>)
    ensures |fields| >= 1
    decreases |s|
  {
    if |s| > 0 && s[0] == '"' then
      var t := QuotedEnd(s[1..]);
      var rest := s[1 + t.1..];
      var k := IndexOf(rest, ',');
      if k < |rest| then [t.0 + rest[..k]] + ParseRecord(rest[k + 1..]) else [t.0 + rest]
    else
      var k := IndexOf(s, ',');
      if k < |s| then [s[..k]] + ParseRecord(s[k + 1..]) else [s]
  }

  /** `"` followed by `x` with every quote doubled, then `"`. */
  function Escape(x: string): string
  {
    ['"'] + Doubled(x) + ['"']
  }

  function Doubled(x: string): string
  {
    if x == [] then [] else Written(x[0]) + Doubled(x[1..])
  }

  /** How one character is written inside a quoted field. */
  function Written(c: char): string
  {
    if c == '"' then ['"', '"'] else [c]
  }

  /** Without quotes in it, a string is its own doubling. */
  lemma {:induction false} DoubledPlain(x: string)
    requires '"' !in x
    ensures Doubled(x) == x
  {
    if x != [] {
      DoubledPlain(x[1..]);
      assert x == [x[0]] + x[1..];
    }
  }

  /** A quoted field written by `Escape` reads back as what was escaped. */
  lemma {:induction false} QuotedEndDoubled(x: string, rest: string)
    requires rest == [] || rest[0] != '"'
    ensures QuotedEnd(Doubled(x) + ['"'] + rest) == (x, |Doubled(x)| + 1)
  {
    if x == [] {
      QuotedEndClose(rest);
    } else {
      var c, more := x[0], x[1..];
      QuotedEndDoubled(more, rest);
      var tail := Doubled(more) + ['"'] + rest;
      assert Doubled(x) + ['"'] + rest == Written(c) + tail;
      QuotedEndWritten(c, tail);
      assert x == [c] + more;
    }
  }

  /** A lone quote closes the field. */
  lemma QuotedEndClose(rest: string)
    requires rest == [] || rest[0] != '"'
    ensures QuotedEnd(['"'] + rest) == ([], 1)
  {
  }

  /** A written character reads back as itself: a doubled quote as one quote. */
  lemma QuotedEndWritten(c: char, tail: string)
    ensures QuotedEnd(Written(c) + tail) == ([c] + QuotedEnd(tail).0, QuotedEnd(tail).1 + |Written(c)|)
  {
    assert (Written(c) + tail)[|Written(c)|..] == tail;
  }

  /** Every cell escaped. */
  function EscapeAll(cells: seq<string>): (r: seq<string>)
    ensures |r| == |cells|
    ensures forall i :: 0 <= i < |cells| ==> r[i] == Escape(cells[i])
  {
    if cells == [] then [] else [Escape(cells[0])] + EscapeAll(cells[1..])
  }

  /** `cell` is how `value` is written: escaped, or as it is when it holds neither a comma nor a quote. */
  predicate Writes(cell: string, value: string)
  {
    cell == Escape(value) || (cell == value && ',' !in value && '"' !in value)
  }

  /** Reading a record stops the first field at the end of the cell that wrote it. */
  lemma ParseHead(cell: string, value: string, tail: string)
    requires Writes(cell, value)
    requires tail == [] || tail[0] == ','
    ensures ParseRecord(cell + tail) == [value] + (if tail == [] then [] else ParseRecord(tail[1..]))
  {
    if cell == Escape(value) {
      ParseHeadEscaped(value, tail);
    } else {
      ParseHeadPlain(value, tail);
    }
  }

  lemma ParseHeadEscaped(value: string, tail: string)
    requires tail == [] || tail[0] == ','
    ensures ParseRecord(Escape(value) + tail) == [value] + (if tail == [] then [] else ParseRecord(tail[1..]))
  {
    var s := Escape(value) + tail;
    assert s[1..] == Doubled(value) + ['"'] + tail;
    QuotedEndDoubled(value, tail);
    assert s[1 + |Doubled(value)| + 1..] == tail;
    ParseAfterQuoted(s, value, |Doubled(value)| + 1, tail);
  }

  /** A quoted field followed by a comma or the end of the record is a whole field. */
  lemma ParseAfterQuoted(s: string, f: string, n: nat, tail: string)
    requires |s| > 0 && s[0] == '"'
    requires QuotedEnd(s[1..]) == (f, n)
    requires s[1 + n..] == tail
    requires tail == [] || tail[0] == ','
    ensures ParseRecord(s) == [f] + (if tail == [] then [] else ParseRecord(tail[1..]))
  {
    var t := QuotedEnd(s[1..]);
    var rest := s[1 + t.1..];
    assert rest == tail;
    var k := IndexOf(rest, ',');
    if tail == [] {
      assert ParseRecord(s) == [t.0 + rest];
      assert t.0 + rest == f;
    } else {
      assert k == 0;
      assert ParseRecord(s) == [t.0 + rest[..k]] + ParseRecord(rest[k + 1..]);
      assert t.0 + rest[..k] == f;
    }
  }

  lemma ParseHeadPlain(value: string, tail: string)
    requires ',' !in value && '"' !in value
    requires tail == [] || tail[0] == ','
    ensures ParseRecord(value + tail) == [value] + (if tail == [] then [] else ParseRecord(tail[1..]))
  {
    var s := value + tail;
    assert s == [] || s[0] != '"' by {
      if value != [] {
        assert s[0] == value[0];
      }
    }
    if tail == [] {
      assert s == value;
      assert IndexOf(s, ',') == |s|;
      assert ParseRecord(s) == [s];
    } else {
      IndexOfAfter(value, ',', tail[1..]);
      assert s == value + [','] + tail[1..];
      assert s[..|value|] == value;
      assert s[|value| + 1..] == tail[1..];
      assert ParseRecord(s) == [s[..|value|]] + ParseRecord(s[|value| + 1..]);
    }
  }

  /** A record of cells, each written from its value, reads back as the values. */
  lemma {:induction false} ParseMixed(cells: seq<string>, values: seq<string>)
    requires |cells| == |values| >= 1
    requires forall i :: 0 <= i < |cells| ==> Writes(cells[i], values[i])
    ensures ParseRecord(Join(cells, ',')) == values
  {
    if |cells| == 1 {
      ParseHead(cells[0], values[0], "");
      assert cells[0] + "" == cells[0];
    } else {
      var tail := [','] + Join(cells[1..], ',');
      assert Join(cells, ',') == cells[0] + tail;
      ParseHead(cells[0], values[0], tail);
      assert tail[1..] == Join(cells[1..], ',');
      ParseMixed(cells[1..], values[1..]);
      assert values == [values[0]] + values[1..];
    }
  }

  /** A record of escaped cells reads back as the cells, whatever they hold. */
  lemma ParseEscaped(values: seq<string>)
    requires |values| >= 1
    ensures ParseRecord(Join(EscapeAll(values), ',')) == values
  {
    ParseMixed(EscapeAll(values), values);
  }

  // ---- The export ---------------------------------------------------------------

  /** The header cells, in column order. */
  const Headers: seq<string> := ["Date", "Telecaller Name", "CP Firm", "Calls Dialed", "Calls Connected",
                                 "Projects Explained", "Scheduled Visits", "Completed Visits", "Leads"]

  const HeaderLine: string := Join(Headers, ',')

  /** The prefix that makes the content a downloadable `data:` URI. */
  const DataUriPrefix: string := "data:text/csv;charset=utf-8,"

  /** What each column means for a report: the values a reader should get back. */
  function Values(r: DailyReport, fmt: int -> string): (v: seq<string>)
    ensures |v| == |Headers|
  {
    [fmt(r.date), r.telecallerName, r.cpFirmDialingFor,
     NatToString(r.callsDialed), NatToString(r.callsConnected), NatToString(r.projectsExplained),
     NatToString(|r.scheduledVisits|), NatToString(|r.completedVisits|), NatToString(|r.leads|)]
  }

  /** `"` + `x` + `"`, with quotes inside `x` left as they are. */
  function Quoted(x: string): (q: string)
    ensures |q| == |x| + 2 && q[0] == '"' && q[|q| - 1] == '"'
    ensures q[1..|q| - 1] == x
  {
    ['"'] + x + ['"']
  }

  /** The cells the export writes: the date as formatted, the name and firm quoted, then the counts. */
  function Cells(r: DailyReport, fmt: int -> string): (c: seq<string>)
    ensures |c| == |Headers|
    ensures c[0] == fmt(r.date)
    ensures c[1] == Quoted(r.telecallerName) && c[2] == Quoted(r.cpFirmDialingFor)
    ensures forall i :: 3 <= i < |c| ==> IsDigits(c[i]) && c[i] == Values(r, fmt)[i]
  {
    [fmt(r.date), Quoted(r.telecallerName), Quoted(r.cpFirmDialingFor),
     NatToString(r.callsDialed), NatToString(r.callsConnected), NatToString(r.projectsExplained),
     NatToString(|r.scheduledVisits|), NatToString(|r.completedVisits|), NatToString(|r.leads|)]
  }

  /** One exported row, as written. */
  function Row(r: DailyReport, fmt: int -> string): string
  {
    Join(Cells(r, fmt), ',')
  }

  /** One exported row with every cell escaped. */
  function EscapedRow(r: DailyReport, fmt: int -> string): string
  {
    Join(EscapeAll(Values(r, fmt)), ',')
  }

  /** `reports.map(...)`: one row per report, in the reports' order. */
  function Rows(reports: seq<DailyReport>, fmt: int -> string): (rows: seq<string>)
    ensures |rows| == |reports|
  {
    seq(|reports|, i requires 0 <= i < |reports| => Row(reports[i], fmt))
  }

  function EscapedRows(reports: seq<DailyReport>, fmt: int -> string): (rows: seq<string>)
    ensures |rows| == |reports|
  {
    seq(|reports|, i requires 0 <= i < |reports| => EscapedRow(reports[i], fmt))
  }

  /** The file: the header line, then the rows, joined by newlines. */
  function Csv(reports: seq<DailyReport>, fmt: int -> string): string
  {
    Join([HeaderLine] + Rows(reports, fmt), '\n')
  }

  function EscapedCsv(reports: seq<DailyReport>, fmt: int -> string): string
  {
    Join([HeaderLine] + EscapedRows(reports, fmt), '\n')
  }

  /** The URI content `handleExport` hands to the download link, as the code builds it. */
  function WrittenExportContent(reports: seq<DailyReport>, fmt: int -> string): string
  {
    DataUriPrefix + Csv(reports, fmt)
  }

  /** The corrected URI content: the same, built from the escaped rows. */
  function ExportContent(reports: seq<DailyReport>, fmt: int -> string): string
  {
    DataUriPrefix + EscapedCsv(reports, fmt)
  }

  // ---- What a reader of the file gets -------------------------------------------

  /** No column name holds a comma. */
  lemma HeadersNoComma()
    ensures |Headers| == 9
    ensures forall i :: 0 <= i < |Headers| ==> ',' !in Headers[i]
  {
  }

  /** No column name holds a quote. */
  lemma HeadersNoQuote()
    ensures forall i :: 0 <= i < |Headers| ==> '"' !in Headers[i]
  {
  }

  /** No column name holds a newline. */
  lemma HeadersNoNewline()
    ensures forall i :: 0 <= i < |Headers| ==> '\n' !in Headers[i]
  {
  }

  /** The header line reads back as the nine column names. */
  lemma HeaderCells()
    ensures Split(HeaderLine, ',') == Headers
    ensures ParseRecord(HeaderLine) == Headers
  {
    HeadersNoComma();
    HeadersNoQuote();
    SplitJoin(Headers, ',');
    ParseMixed(Headers, Headers);
  }

  predicate NoNewline(r: DailyReport, fmt: int -> string)
  {
    '\n' !in fmt(r.date) && '\n' !in r.telecallerName && '\n' !in r.cpFirmDialingFor
  }

  lemma RowNoNewline(r: DailyReport, fmt: int -> string)
    requires NoNewline(r, fmt)
    ensures '\n' !in Row(r, fmt)
    ensures '\n' !in EscapedRow(r, fmt)
  {
    CellsNoNewline(r, fmt);
    EscapedNoNewline(r, fmt);
  }

  lemma CellsNoNewline(r: DailyReport, fmt: int -> string)
    requires NoNewline(r, fmt)
    ensures '\n' !in Row(r, fmt)
  {
    var cells := Cells(r, fmt);
    forall i | 0 <= i < |cells| ensures '\n' !in cells[i] {
      if 3 <= i {
        assert IsDigits(cells[i]);
      }
    }
    JoinAvoids(cells, ',', '\n');
  }

  lemma EscapedNoNewline(r: DailyReport, fmt: int -> string)
    requires NoNewline(r, fmt)
    ensures '\n' !in EscapedRow(r, fmt)
  {
    var values := Values(r, fmt);
    forall i | 0 <= i < |values| ensures '\n' !in values[i] {
      if 3 <= i {
        assert IsDigits(values[i]);
      }
    }
    var escaped := EscapeAll(values);
    forall i | 0 <= i < |escaped| ensures '\n' !in escaped[i] {
      DoubledAvoids(values[i], '\n');
    }
    JoinAvoids(escaped, ',', '\n');
  }

  lemma {:induction false} DoubledAvoids(x: string, c: char)
    requires c != '"' && c !in x
    ensures c !in Doubled(x)
  {
    if x != [] {
      DoubledAvoids(x[1..], c);
    }
  }

  lemma HeaderNoNewline()
    ensures '\n' !in HeaderLine
  {
    HeadersNoNewline();
    JoinAvoids(Headers, ',', '\n');
  }

  /** No row, as written or escaped, holds a newline when no report's text does. */
  lemma RowsNoNewline(reports: seq<DailyReport>, fmt: int -> string)
    requires forall i :: 0 <= i < |reports| ==> NoNewline(reports[i], fmt)
    ensures forall i :: 0 <= i < |reports| ==> '\n' !in Rows(reports, fmt)[i] && '\n' !in EscapedRows(reports, fmt)[i]
  {
    forall i | 0 <= i < |reports|
      ensures '\n' !in Rows(reports, fmt)[i] && '\n' !in EscapedRows(reports, fmt)[i]
    {
      RowNoNewline(reports[i], fmt);
    }
  }

  /** A header line followed by newline-free rows splits back into those lines. */
  lemma SplitLines(rows: seq<string>)
    requires forall i :: 0 <= i < |rows| ==> '\n' !in rows[i]
    ensures Split(Join([HeaderLine] + rows, '\n'), '\n') == [HeaderLine] + rows
  {
    HeaderNoNewline();
    var lines := [HeaderLine] + rows;
    assert forall i :: 0 < i < |lines| ==> lines[i] == rows[i - 1];
    SplitJoin(lines, '\n');
  }

  /**
   * With no newline inside a report's text, the file as written has one line
   * for the header and then one per report, in the reports' order.
   */
  lemma CsvLines(reports: seq<DailyReport>, fmt: int -> string)
    requires forall i :: 0 <= i < |reports| ==> NoNewline(reports[i], fmt)
    ensures Split(Csv(reports, fmt), '\n') == [HeaderLine] + Rows(reports, fmt)
  {
    RowsNoNewline(reports, fmt);
    SplitLines(Rows(reports, fmt));
  }

  /**
   * The same for the exported content: after the `data:` prefix, the header
   * line and then one escaped row per report, in the reports' order.
   */
  lemma ExportLines(reports: seq<DailyReport>, fmt: int -> string)
    requires forall i :: 0 <= i < |reports| ==> NoNewline(reports[i], fmt)
    ensures ExportContent(reports, fmt)[..|DataUriPrefix|] == DataUriPrefix
    ensures Split(ExportContent(reports, fmt)[|DataUriPrefix|..], '\n') == [HeaderLine] + EscapedRows(reports, fmt)
    ensures WrittenExportContent(reports, fmt)[..|DataUriPrefix|] == DataUriPrefix
    ensures Split(WrittenExportContent(reports, fmt)[|DataUriPrefix|..], '\n') == [HeaderLine] + Rows(reports, fmt)
  {
    RowsNoNewline(reports, fmt);
    SplitLines(EscapedRows(reports, fmt));
    SplitLines(Rows(reports, fmt));
    assert ExportContent(reports, fmt)[|DataUriPrefix|..] == EscapedCsv(reports, fmt);
    assert WrittenExportContent(reports, fmt)[|DataUriPrefix|..] == Csv(reports, fmt);
  }

  /**
   * When the formatted date holds neither a comma nor a quote, and the name
   * and the firm hold no quote, the row as written reads back as the report's
   * values: the quotes around the name and firm protect any commas in them
   * and are taken off, and the counts are the report's.
   */
  lemma RowReadsBack(r: DailyReport, fmt: int -> string)
    requires ',' !in fmt(r.date) && '"' !in fmt(r.date)
    requires '"' !in r.telecallerName && '"' !in r.cpFirmDialingFor
    ensures ParseRecord(Row(r, fmt)) == Values(r, fmt)
  {
    CellsWriteValues(r, fmt);
    ParseMixed(Cells(r, fmt), Values(r, fmt));
  }

  /** Each cell as written is a way of writing the value it stands for. */
  lemma CellsWriteValues(r: DailyReport, fmt: int -> string)
    requires ',' !in fmt(r.date) && '"' !in fmt(r.date)
    requires '"' !in r.telecallerName && '"' !in r.cpFirmDialingFor
    ensures forall i :: 0 <= i < |Headers| ==> Writes(Cells(r, fmt)[i], Values(r, fmt)[i])
  {
    DoubledPlain(r.telecallerName);
    DoubledPlain(r.cpFirmDialingFor);
    var cells := Cells(r, fmt);
    forall i | 3 <= i < |cells| ensures ',' !in cells[i] && '"' !in cells[i] {
      assert IsDigits(cells[i]);
    }
  }

  /** Every count in a row reads back as the report's count. */
  lemma RowCounts(r: DailyReport, fmt: int -> string)
    ensures ParseNat(Values(r, fmt)[3]) == r.callsDialed
    ensures ParseNat(Values(r, fmt)[4]) == r.callsConnected
    ensures ParseNat(Values(r, fmt)[5]) == r.projectsExplained
    ensures ParseNat(Values(r, fmt)[6]) == |r.scheduledVisits|
    ensures ParseNat(Values(r, fmt)[7]) == |r.completedVisits|
    ensures ParseNat(Values(r, fmt)[8]) == |r.leads|
  {
    ParseNatToString(r.callsDialed);
    ParseNatToString(r.callsConnected);
    ParseNatToString(r.projectsExplained);
    ParseNatToString(|r.scheduledVisits|);
    ParseNatToString(|r.completedVisits|);
    ParseNatToString(|r.leads|);
  }

  /**
   * As written, a formatted date holding a comma (the default `en-US` form
   * "1/2/2026, 9:00:00 AM" does) is cut at that comma by a reader: the row no
   * longer reads back as the report's values and its first field is not the date.
   */
  lemma DateCommaBreaksRow(r: DailyReport, fmt: int -> string)
    requires ',' in fmt(r.date) && fmt(r.date)[0] != '"'
    ensures ParseRecord(Row(r, fmt))[0] != fmt(r.date)
    ensures ParseRecord(Row(r, fmt)) != Values(r, fmt)
  {
    var d := fmt(r.date);
    var s := Row(r, fmt);
    var k := IndexOf(d, ',');
    IndexOfFirst(d, ',');
    IndexOfFirst(s, ',');
    assert s == d + [','] + Join(Cells(r, fmt)[1..], ',');
    assert s[0] == d[0];
    assert IndexOf(s, ',') == k by {
      assert s[k] == ',';
      forall i | 0 <= i < k ensures s[i] != ',' {
        assert s[i] == d[i];
      }
    }
    assert ParseRecord(s)[0] == s[..k];
    assert |s[..k]| < |d|;
  }

  /**
   * As written, a quote inside the firm is not doubled, so a reader takes it
   * for the closing quote: with the firm `x"y` (no quote in `x`, and `y`
   * neither empty nor holding a quote or a comma) the third field reads back
   * as `xy"`, not as the firm.
   */
  lemma FirmQuoteBreaksRow(r: DailyReport, fmt: int -> string, x: string, y: string)
    requires ',' !in fmt(r.date) && '"' !in fmt(r.date) && '"' !in r.telecallerName
    requires r.cpFirmDialingFor == x + ['"'] + y
    requires '"' !in x && y != [] && '"' !in y && ',' !in y
    ensures |ParseRecord(Row(r, fmt))| > 2 && ParseRecord(Row(r, fmt))[2] == x + y + ['"']
    ensures ParseRecord(Row(r, fmt))[2] != r.cpFirmDialingFor
    ensures ParseRecord(Row(r, fmt)) != Values(r, fmt)
  {
    var cells := Cells(r, fmt);
    var tail := Join(cells[3..], ',');
    assert Join(cells[2..], ',') == Quoted(r.cpFirmDialingFor) + [','] + tail;
    CellsOfRow(r, fmt);
    UndoubledQuoteField(x, y, tail);
    assert (x + y + ['"'])[|x|] == y[0];
    assert r.cpFirmDialingFor[|x|] == '"';
  }

  /** A quoted cell `"x"y"` followed by a comma reads back as `xy"`. */
  lemma UndoubledQuoteField(x: string, y: string, tail: string)
    requires '"' !in x && y != [] && '"' !in y && ',' !in y
    ensures ParseRecord(Quoted(x + ['"'] + y) + [','] + tail)[0] == x + y + ['"']
  {
    var s := Quoted(x + ['"'] + y) + [','] + tail;
    var rest := y + ['"'] + [','] + tail;
    DoubledPlain(x);
    assert s[1..] == Doubled(x) + ['"'] + rest;
    QuotedEndDoubled(x, rest);
    assert s[1 + |x| + 1..] == rest;
    IndexOfAfter(y + ['"'], ',', tail);
    assert rest == (y + ['"']) + [','] + tail;
    assert rest[..|y| + 1] == y + ['"'];
  }

  /** The first two cells of a row as written read back, leaving the rest of the row. */
  lemma CellsOfRow(r: DailyReport, fmt: int -> string)
    requires ',' !in fmt(r.date) && '"' !in fmt(r.date) && '"' !in r.telecallerName
    ensures ParseRecord(Row(r, fmt)) == [fmt(r.date), r.telecallerName] + ParseRecord(Join(Cells(r, fmt)[2..], ','))
  {
    var cells := Cells(r, fmt);
    var date, name := cells[0], cells[1];
    var rest1 := Join(cells[1..], ',');
    var rest2 := Join(cells[2..], ',');
    assert Row(r, fmt) == date + ([','] + rest1);
    assert rest1 == name + ([','] + rest2);
    DoubledPlain(r.telecallerName);
    assert Writes(date, fmt(r.date));
    assert Writes(name, r.telecallerName) by {
      assert name == Quoted(r.telecallerName);
    }
    ParseHead(date, fmt(r.date), [','] + rest1);
    assert ([','] + rest1)[1..] == rest1;
    ParseHead(name, r.telecallerName, [','] + rest2);
    assert ([','] + rest2)[1..] == rest2;
  }

  /** With every cell escaped, a row reads back as the report's values, whatever they hold. */
  lemma EscapedRowReadsBack(r: DailyReport, fmt: int -> string)
    ensures ParseRecord(EscapedRow(r, fmt)) == Values(r, fmt)
  {
    ParseEscaped(Values(r, fmt));
  }
}
