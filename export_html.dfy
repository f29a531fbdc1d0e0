/** The report that every page's "Export PDF" button produces: an HTML document with a
    title, a header row, one table row per record and a record-count footer, and the
    name of the file it is downloaded as. Nothing in it is HTML-escaped. */
module ExportHtml {
  import opened Wrappers
  import opened Text
  import Seqs

  /** A JavaScript value placed in a report cell. `Obj` is a plain object, such as the
      status object the stock page puts in its Status column. */
  datatype Value = Str(s: string) | Num(n: int) | Null | Undefined | Obj(fields: seq<(string, string)>)

  /** An object literal: its keys with their values, in the order they were written.
      Every key the pages use is a non-numeric string, so this is also the order in
      which `Object.values` lists them. */
  type Record = seq<(string, Value)>

  /** The key of a record entry; the pages write their keys in header order. */
  function Key(entry: (string, Value)): string
  {
    entry.0
  }

  /** JavaScript falsiness of the values a report can hold. */
  predicate Falsy(v: Value)
  {
    match v
    case Str(s) => s == ""
    case Num(n) => n == 0
    case Null => true
    case Undefined => true
    case Obj(_) => false
  }

  /** `${value || '-'}`: a falsy value becomes `-`, anything else its string form. */
  function Render(v: Value): (r: string)
    ensures Falsy(v) ==> r == "-"
    ensures v.Str? && !Falsy(v) ==> r == v.s
    ensures v.Num? && !Falsy(v) ==> r == IntToString(v.n)
    ensures v.Obj? ==> r == "[object Object]"
  {
    if Falsy(v) then "-"
    else match v
      case Str(s) => s
      case Num(n) => IntToString(n)
      case Obj(_) => "[object Object]"
      case Null => "-"
      case Undefined => "-"
  }

  function ValueOf(entry: (string, Value)): Value
  {
    entry.1
  }

  /** `Object.values(row).map(value => value || '-')`, as strings. */
  function RenderedValues(row: Record): (r: seq<string>)
    ensures |r| == |row|
    ensures forall i :: 0 <= i < |row| ==> r[i] == Render(row[i].1)
  {
    Seqs.Map(Seqs.Map(row, ValueOf), Render)
  }

  function OpenTag(tag: string): string
  {
    "<" + tag + ">"
  }

  function CloseTag(tag: string): string
  {
    "</" + tag + ">"
  }

  /** The cells of one table row, `contents.map(c => <tag>c</tag>).join('')`. */
  function Cells(tag: string, contents: seq<string>): string
  {
    if contents == [] then "" else OpenTag(tag) + contents[0] + CloseTag(tag) + Cells(tag, contents[1..])
  }

  function Spaces(n: nat): (r: string)
    ensures |r| == n
    ensures forall i :: 0 <= i < n ==> r[i] == ' '
  {
    if n == 0 then "" else " " + Spaces(n - 1)
  }

  /** The text around the cells of one data row, with the indentation of the template. */
  function RowOpen(): string
  {
    "\n" + Spaces(20) + "<tr>\n" + Spaces(24)
  }

  function RowClose(): string
  {
    "\n" + Spaces(20) + "</tr>\n" + Spaces(16)
  }

  function RowHtml(row: Record): string
  {
    RowOpen() + Cells("td", RenderedValues(row)) + RowClose()
  }

  /** `data.map(row => ...).join('')`. */
  function Body(data: seq<Record>): string
  {
    if data == [] then "" else RowHtml(data[0]) + Body(data[1..])
  }

  /** The strings a reader of the table sees, row by row. */
  function Table(data: seq<Record>): (r: seq<seq<string>>)
    ensures |r| == |data|
    ensures forall i :: 0 <= i < |data| ==> r[i] == RenderedValues(data[i])
  {
    Seqs.Map(data, RenderedValues)
  }

  const Preamble: string :=
    "\n    <!DOCTYPE html>\n    <html>\n    <head>\n        <meta charset=\"utf-8\">\n        "

  const StyleBlock: string :=
    "\n        <style>\n"
    + "            body { font-family: Arial, sans-serif; margin: 20px; }\n"
    + "            h1 { color: #333; text-align: center; }\n"
    + "            table { width: 100%; border-collapse: collapse; margin-top: 20px; }\n"
    + "            th, td { border: 1px solid #ddd; padding: 8px; text-align: left; }\n"
    + "            th { background-color: #f2f2f2; font-weight: bold; }\n"
    + "            .header-info { margin-bottom: 20px; }\n"
    + "            .export-date { color: #666; font-size: 12px; }\n"
    + "        </style>\n    </head>\n    <body>\n        <div class=\"header-info\">\n            "

  const HeaderToBody: string :=
    "\n                </tr>\n            </thead>\n            <tbody>\n                "

  const BodyToFooter: string :=
    "\n            </tbody>\n        </table>\n        \n"
    + "        <div style=\"margin-top: 30px; font-size: 12px; color: #666;\">\n            "

  const Ending: string := "\n        </div>\n    </body>\n    </html>\n  "

  function TitleElement(title: string): string
  {
    "<title>" + title + "</title>"
  }

  function HeadingElement(title: string): string
  {
    "<h1>" + title + "</h1>"
  }

  /** The export-time line (its text comes from the runtime's locale clock), up to the
      place where the header cells start. */
  function DateLine(exportedAt: string): string
  {
    "\n            <p class=\"export-date\">Diekspor pada: " + exportedAt
    + "</p>\n        </div>\n        \n        <table>\n            <thead>\n                <tr>\n"
    + Spaces(20)
  }

  function TotalRecordLine(count: nat): string
  {
    "<p>Total Record: " + NatToString(count) + "</p>"
  }

  /** The whole HTML text of a report. `exportedAt` stands for
      `new Date().toLocaleString('id-ID')`, which depends on the clock and the locale. */
  function Document(title: string, data: seq<Record>, headers: seq<string>, exportedAt: string): string
  {
    Preamble + TitleElement(title)
    + (StyleBlock + HeadingElement(title)
      + (DateLine(exportedAt) + Cells("th", headers)
        + (HeaderToBody + Body(data)
          + (BodyToFooter + TotalRecordLine(|data|) + Ending))))
  }

  /** Position of the first `c` in `s`, or `|s|` when there is none. */
  function IndexOfChar(s: string, c: char): (k: nat)
    ensures k <= |s|
    ensures forall i :: 0 <= i < k ==> s[i] != c
    ensures k < |s| ==> s[k] == c
  {
    if s == [] then 0 else if s[0] == c then 0 else 1 + IndexOfChar(s[1..], c)
  }

  /** `toISOString().split('T')[0]`: the text before the first `T`. */
  function DatePart(iso: string): string
  {
    iso[..IndexOfChar(iso, 'T')]
  }

  /** The download name `${filename}_${date}.html`. */
  function FileName(filename: string, iso: string): string
  {
    filename + "_" + DatePart(iso) + ".html"
  }

  /** For an ISO-8601 timestamp (`YYYY-MM-DDTHH:MM:SS.sssZ`) the date part is its first
      ten characters, so the name is the given name, an underscore, the date and `.html`. */
  lemma FileNameOfIsoTimestamp(filename: string, iso: string)
    requires |iso| > 10 && iso[10] == 'T' && 'T' !in iso[..10]
    ensures FileName(filename, iso) == filename + "_" + iso[..10] + ".html"
  {
  }

  datatype ExportFile = ExportFile(name: string, html: string)

  /** `exportToPDF(title, data, headers, filename)` without the download itself: the
      name the file gets and the text it holds. */
  function ExportToPdf(title: string, data: seq<Record>, headers: seq<string>, filename: string,
                       exportedAt: string, iso: string): ExportFile
  {
    ExportFile(FileName(filename, iso), Document(title, data, headers, exportedAt))
  }

  // ---------------------------------------------------------------------------
  // Reading a report back. These readers are the partners of `Cells` and `Body`:
  // they show that the header row and the table body carry exactly the headers and
  // the rendered values, in order, as long as no text contains a `<`.

  /** Reads consecutive `<tag>...</tag>` cells from the front of `s`, stopping at the
      first text that is not a cell; returns the cell contents and what is left. */
  function ParseCells(tag: string, s: string): (r: (seq<string>, string))
    ensures |r.1| <= |s|
    decreases |s|
  {
    if !StartsWith(s, OpenTag(tag)) then ([], s)
    else
      var rest := s[|OpenTag(tag)|..];
      var k := IndexOfChar(rest, '<');
      var after := rest[k..];
      if !StartsWith(after, CloseTag(tag)) then ([], s)
      else
        var more := ParseCells(tag, after[|CloseTag(tag)|..]);
        ([rest[..k]] + more.0, more.1)
  }

  /** Reads the data rows of a table body. */
  function ParseRows(s: string): Option<seq<seq<string>>>
    decreases |s|
  {
    if s == [] then Some([])
    else if !StartsWith(s, RowOpen()) then None
    else
      var cells := ParseCells("td", s[|RowOpen()|..]);
      if !StartsWith(cells.1, RowClose()) then None
      else match ParseRows(cells.1[|RowClose()|..])
        case None => None
        case Some(rows) => Some([cells.0] + rows)
  }

  /** No string of the list contains a `<`. */
  predicate Plain(texts: seq<string>)
  {
    forall i :: 0 <= i < |texts| ==> '<' !in texts[i]
  }

  lemma {:induction false} IndexOfCharAfterPlain(v: string, w: string, c: char)
    requires c !in v && w != [] && w[0] == c
    ensures IndexOfChar(v + w, c) == |v|
  {
    if v != [] {
      assert (v + w)[1..] == v[1..] + w;
      IndexOfCharAfterPlain(v[1..], w, c);
    }
  }

  /** One cell whose text has no `<` is read back as that text. */
  lemma ParseOneCell(tag: string, v: string, later: string)
    requires '<' !in v
    ensures ParseCells(tag, OpenTag(tag) + v + CloseTag(tag) + later)
         == ([v] + ParseCells(tag, later).0, ParseCells(tag, later).1)
  {
    var o, c := OpenTag(tag), CloseTag(tag);
    var s := o + v + c + later;
    assert s[..|o|] == o;
    var rest := s[|o|..];
    assert rest == v + (c + later);
    IndexOfCharAfterPlain(v, c + later, '<');
    assert rest[..|v|] == v;
    var after := rest[|v|..];
    assert after == c + later;
    assert after[..|c|] == c;
    assert after[|c|..] == later;
  }

  /** Cells written from texts without `<` are read back as exactly those texts. */
  lemma {:induction false} CellsRoundTrip(tag: string, contents: seq<string>, tail: string)
    requires Plain(contents)
    requires !StartsWith(tail, OpenTag(tag))
    ensures ParseCells(tag, Cells(tag, contents) + tail) == (contents, tail)
  {
    if contents == [] {
      assert Cells(tag, contents) + tail == tail;
    } else {
      var v := contents[0];
      var later := Cells(tag, contents[1..]) + tail;
      assert Cells(tag, contents) + tail == OpenTag(tag) + v + CloseTag(tag) + later;
      ParseOneCell(tag, v, later);
      CellsRoundTrip(tag, contents[1..], tail);
      assert contents == [v] + contents[1..];
    }
  }

  /** The header row holds one cell per header, in the order of `headers`. */
  lemma HeaderRowRoundTrip(headers: seq<string>)
    requires Plain(headers)
    ensures ParseCells("th", Cells("th", headers)).0 == headers
  {
    CellsRoundTrip("th", headers, "");
    assert Cells("th", headers) + "" == Cells("th", headers);
  }

  /** One data row whose rendered values have no `<` is read back as those values. */
  lemma ParseOneRow(row: Record, later: string)
    requires Plain(RenderedValues(row))
    ensures ParseRows(RowHtml(row) + later)
         == match ParseRows(later) case None => None case Some(rows) => Some([RenderedValues(row)] + rows)
  {
    var o, c := RowOpen(), RowClose();
    var cells := RenderedValues(row);
    var s := RowHtml(row) + later;
    assert s == o + (Cells("td", cells) + (c + later));
    assert s[..|o|] == o;
    assert s[|o|..] == Cells("td", cells) + (c + later);
    assert c[0] == '\n';
    assert (c + later)[0] == '\n' && OpenTag("td")[0] == '<';
    assert !StartsWith(c + later, OpenTag("td"));
    CellsRoundTrip("td", cells, c + later);
    assert (c + later)[..|c|] == c;
    assert (c + later)[|c|..] == later;
  }

  /** The body holds one row per record, in order, and each row holds the record's
      values, rendered, in the record's own key order. */
  lemma {:induction false} BodyRoundTrip(data: seq<Record>)
    requires forall i :: 0 <= i < |data| ==> Plain(RenderedValues(data[i]))
    ensures ParseRows(Body(data)) == Some(Table(data))
  {
    if data != [] {
      ParseOneRow(data[0], Body(data[1..]));
      BodyRoundTrip(data[1..]);
      assert Table(data) == [RenderedValues(data[0])] + Table(data[1..]);
    }
  }

  /** Texts are inserted without escaping: one header that itself holds cell markup
      is read back as two header cells. */
  lemma HeadersAreNotEscaped()
    ensures ParseCells("th", Cells("th", ["a</th><th>b"])).0 == ["a", "b"]
  {
    var o, c := OpenTag("th"), CloseTag("th");
    assert Cells("th", ["a</th><th>b"]) == o + "a" + c + (o + "b" + c + "");
    assert '<' !in "a" && '<' !in "b";
    ParseOneCell("th", "b", "");
    ParseOneCell("th", "a", o + "b" + c + "");
  }

  /** A row's cells follow the key order of its record, not the order of `headers`:
      with headers Nama, Status and a record written Status first, the row reads
      Aktif, Ani under the headers Nama, Status. */
  lemma CellsFollowKeyOrder()
    ensures var row: Record := [("Status", Str("Aktif")), ("Nama", Str("Ani"))];
      && ParseCells("th", Cells("th", ["Nama", "Status"])).0 == ["Nama", "Status"]
      && ParseRows(Body([row])) == Some([["Aktif", "Ani"]])
  {
    var row: Record := [("Status", Str("Aktif")), ("Nama", Str("Ani"))];
    var cells := RenderedValues(row);
    assert cells[0] == Render(Str("Aktif")) == "Aktif";
    assert cells[1] == Render(Str("Ani")) == "Ani";
    assert cells == ["Aktif", "Ani"];
    assert Plain(["Nama", "Status"]);
    assert Plain(cells);
    HeaderRowRoundTrip(["Nama", "Status"]);
    BodyRoundTrip([row]);
    assert Table([row]) == [cells];
  }

  lemma ContainsInSuffix(a: string, b: string, x: string)
    requires Contains(b, x)
    ensures Contains(a + b, x)
  {
    ContainsIff(b, x);
    var i: nat :| OccursAt(b, x, i);
    assert (a + b)[|a| + i..|a| + i + |x|] == b[i..i + |x|];
    assert OccursAt(a + b, x, |a| + i);
    ContainsAt(a + b, x, |a| + i);
  }

  /** The title appears verbatim both as the document title and as the heading, the
      header row and the body appear in the document, and the footer states a number
      that reads back as the number of records. */
  lemma DocumentContents(title: string, data: seq<Record>, headers: seq<string>, exportedAt: string)
    ensures var doc := Document(title, data, headers, exportedAt);
      && Contains(doc, "<title>" + title + "</title>")
      && Contains(doc, "<h1>" + title + "</h1>")
      && Contains(doc, Cells("th", headers))
      && Contains(doc, Body(data))
      && Contains(doc, "<p>Total Record: " + NatToString(|data|) + "</p>")
      && ParseDigits(NatToString(|data|)) == |data|
  {
    var footer := BodyToFooter + TotalRecordLine(|data|) + Ending;
    var body := HeaderToBody + Body(data) + footer;
    var head := DateLine(exportedAt) + Cells("th", headers) + body;
    var afterTitle := StyleBlock + HeadingElement(title) + head;
    var doc := Document(title, data, headers, exportedAt);
    assert doc == Preamble + TitleElement(title) + afterTitle;
    ContainsMiddle(Preamble, TitleElement(title), afterTitle);
    ContainsMiddle(StyleBlock, HeadingElement(title), head);
    ContainsInSuffix(Preamble + TitleElement(title), afterTitle, HeadingElement(title));
    ContainsMiddle(DateLine(exportedAt), Cells("th", headers), body);
    ContainsInSuffix(StyleBlock + HeadingElement(title), head, Cells("th", headers));
    ContainsInSuffix(Preamble + TitleElement(title), afterTitle, Cells("th", headers));
    ContainsMiddle(HeaderToBody, Body(data), footer);
    ContainsInSuffix(DateLine(exportedAt) + Cells("th", headers), body, Body(data));
    ContainsInSuffix(StyleBlock + HeadingElement(title), head, Body(data));
    ContainsInSuffix(Preamble + TitleElement(title), afterTitle, Body(data));
    ContainsMiddle(BodyToFooter, TotalRecordLine(|data|), Ending);
    ContainsInSuffix(HeaderToBody + Body(data), footer, TotalRecordLine(|data|));
    ContainsInSuffix(DateLine(exportedAt) + Cells("th", headers), body, TotalRecordLine(|data|));
    ContainsInSuffix(StyleBlock + HeadingElement(title), head, TotalRecordLine(|data|));
    ContainsInSuffix(Preamble + TitleElement(title), afterTitle, TotalRecordLine(|data|));
    NatToStringRoundTrip(|data|);
  }
}
