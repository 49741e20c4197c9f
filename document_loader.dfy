/** Turning uploaded files into document texts: the extension allow-list, the
    per-format extractors over what the parsing libraries return (page texts,
    paragraph texts, sheets of cell values), and the budgeting loop that sums
    sizes, truncates, warns and tags each document with its file name. */
module DocumentLoader {
  import opened Wrappers
  import opened Strings

  newtype byte = x: int | 0 <= x < 256

  const SupportedExt: set<string> := {"txt", "md", "pdf", "docx", "xlsx", "csv"}
  const PlainExt: set<string> := {"txt", "md", "csv"}

  /** `sorted(SUPPORTED_EXT)` as Python renders it inside an f-string. */
  const SupportedListing := "['csv', 'docx', 'md', 'pdf', 'txt', 'xlsx']"

  const MaxSheets := 10
  const MaxRows := 500
  const MaxCols := 40
  const RowsTruncated := "[... linhas truncadas ...]"

  const MaxFileBytes := 8 * 1024 * 1024
  const MaxTotalBytes := 20 * 1024 * 1024
  const MaxCharsPerDoc := 120000
  const TotalTooLargeDetail := "Total de arquivos excede " + "limite do PoC. Envie menos " + "arquivos ou divida em lotes."

  /** One sheet as the workbook reader yields it: its name and its rows of cell
      values, `None` for an empty cell and `Some(str(value))` otherwise. */
  datatype Sheet = Sheet(name: string, rows: seq<seq<Option<string>>>)

  /** What the foreign parsers make of a file's bytes: the UTF-8 decoding with
      replacement, the text of each PDF page (`None` where the page yields
      none), the text of each DOCX paragraph, and the sheets of a workbook.
      The three document readers give `None` when they raise on bytes they
      cannot read (a corrupt file, or one cut short by the byte cap). */
  datatype Parsers = Parsers(
    decode: seq<byte> -> string,
    pdfPages: seq<byte> -> Option<seq<Option<string>>>,
    docxParagraphs: seq<byte> -> Option<seq<Option<string>>>,
    workbook: seq<byte> -> Option<seq<Sheet>>)

  /** The ways an upload is refused: HTTP 415 with its detail text, HTTP 413
      with its detail text, or the exception of a document reader, which
      nothing catches, for a file of the given extension. */
  datatype UploadError =
    | UnsupportedFormat(detail: string)
    | UploadTooLarge(detail: string)
    | ParseFailed(ext: string)

  // ------------------------------------------------------------ extension

  predicate NoUpper(s: string) {
    forall i :: 0 <= i < |s| ==> !('A' <= s[i] <= 'Z')
  }

  /** `_get_ext`: the lower-cased, stripped text after the last dot, or "" for
      a name that is empty or has no dot. */
  function GetExt(filename: string): (r: string)
    ensures '.' !in filename ==> r == ""
    ensures '.' !in r && NoUpper(r)
    ensures r == [] || (!IsSpace(r[0]) && !IsSpace(r[|r| - 1]))
  {
    if filename == [] || '.' !in filename then ""
    else
      var after := AfterLast(filename, '.');
      LoweredExt(after);
      Strip(Lower(after))
  }

  /** Lower-casing and stripping a dot-free text leaves it dot-free and with
      no upper-case letter. */
  lemma LoweredExt(s: string)
    requires '.' !in s
    ensures '.' !in Strip(Lower(s)) && NoUpper(Strip(Lower(s)))
  {
    LowerDotFree(s);
    StripDotFree(Lower(s));
  }

  lemma LowerDotFree(s: string)
    requires '.' !in s
    ensures '.' !in Lower(s) && NoUpper(Lower(s))
  {
    var low := Lower(s);
    forall i | 0 <= i < |low| ensures low[i] != '.' {
      assert s[i] != '.';
    }
  }

  lemma StripDotFree(low: string)
    requires '.' !in low && NoUpper(low)
    ensures '.' !in Strip(low) && NoUpper(Strip(low))
  {
    var a, b := StripSlice(low);
    var r := Strip(low);
    forall i | 0 <= i < |r| ensures r[i] != '.' && !('A' <= r[i] <= 'Z') {
      assert r[i] == low[a + i];
    }
  }

  /** What `strip` returns is a contiguous piece of its input. */
  lemma StripSlice(s: string) returns (a: nat, b: nat)
    ensures a <= b <= |s| && Strip(s) == s[a..b]
  {
    var l := TrimLeft(s);
    a := |s| - |l|;
    b := a + |TrimRight(l)|;
    assert s[a..b] == l[..|TrimRight(l)|];
  }

  /** Naming a file `base.ext`, for any dot-free extension, gives back that
      extension lower-cased and stripped: `report.PDF` and `notes. Txt `
      are recognised as `pdf` and `txt`. */
  lemma GetExtOfName(base: string, ext: string)
    requires '.' !in ext
    ensures GetExt(base + "." + ext) == Strip(Lower(ext))
  {
    var name := base + "." + ext;
    assert name[|name| - 1 - |ext|] == '.';
    assert '.' in name;
    AfterLastOfSuffix(base + ".", ext, '.');
  }

  /** An extension that is already lower-case and trimmed comes back as it is. */
  lemma GetExtOfLowerName(base: string, ext: string)
    requires '.' !in ext && NoUpper(ext)
    requires ext == [] || (!IsSpace(ext[0]) && !IsSpace(ext[|ext| - 1]))
    ensures GetExt(base + "." + ext) == ext
  {
    GetExtOfName(base, ext);
    assert Lower(ext) == ext;
    if ext != [] {
      StripKeepsTrimmed(ext);
    }
  }

  lemma AfterLastOfSuffix(a: string, b: string, c: char)
    requires a != [] && a[|a| - 1] == c && c !in b
    ensures AfterLast(a + b, c) == b
  {
    var s := a + b;
    var r := AfterLast(s, c);
    assert s[|a| - 1] == c;
    assert forall i :: |s| - |r| <= i < |s| ==> s[i] == r[i - (|s| - |r|)];
    assert forall i :: |a| <= i < |s| ==> s[i] == b[i - |a|];
    assert s[|a|..] == b;
  }

  // ------------------------------------------------------------ extractors

  /** One tagged page, numbered from 1. */
  function PageEntry(i: nat, text: string): string {
    "[PDF:page=" + NatToString(i + 1) + "]\n" + Strip(text)
  }

  /** A page whose text is not blank. */
  predicate KeptPage(page: Option<string>) {
    Strip(page.GetOr("")) != []
  }

  /** The positions of the pages whose text is not blank, in order. */
  function NonBlankPages(pages: seq<Option<string>>): seq<nat>
  {
    if pages == [] then []
    else NonBlankPages(pages[..|pages| - 1]) + (if KeptPage(pages[|pages| - 1]) then [|pages| - 1] else [])
  }

  /** The parts the PDF loop collects. */
  function PdfParts(pages: seq<Option<string>>): seq<string>
  {
    if pages == [] then []
    else
      var last := pages[|pages| - 1].GetOr("");
      PdfParts(pages[..|pages| - 1]) + (if KeptPage(pages[|pages| - 1]) then [PageEntry(|pages| - 1, last)] else [])
  }

  /** The kept page numbers are page positions, in increasing order. */
  lemma {:induction false} NonBlankPagesOrdered(pages: seq<Option<string>>)
    ensures forall k :: 0 <= k < |NonBlankPages(pages)| ==> NonBlankPages(pages)[k] < |pages|
    ensures forall k, l :: 0 <= k < l < |NonBlankPages(pages)| ==> NonBlankPages(pages)[k] < NonBlankPages(pages)[l]
  {
    if pages != [] {
      var n := |pages| - 1;
      NonBlankPagesOrdered(pages[..n]);
      var prev := NonBlankPages(pages[..n]);
      var tail: seq<nat> := if KeptPage(pages[n]) then [n] else [];
      var ix := prev + tail;
      assert NonBlankPages(pages) == ix;
      forall k | 0 <= k < |ix| ensures ix[k] < |pages| {
        if k < |prev| {
          assert ix[k] == prev[k];
        } else {
          assert ix[k] == tail[k - |prev|] == n;
        }
      }
      forall k, l | 0 <= k < l < |ix| ensures ix[k] < ix[l] {
        assert ix[k] == prev[k];
        if l < |prev| {
          assert ix[l] == prev[l];
        } else {
          assert ix[l] == tail[l - |prev|] == n;
        }
      }
    }
  }

  /** A page is kept exactly when its text is not blank. */
  lemma {:induction false} NonBlankPagesExact(pages: seq<Option<string>>)
    ensures forall i :: i in NonBlankPages(pages) <==> 0 <= i < |pages| && KeptPage(pages[i])
  {
    if pages != [] {
      var n := |pages| - 1;
      var init := pages[..n];
      NonBlankPagesExact(init);
      NonBlankPagesOrdered(init);
      var prev := NonBlankPages(init);
      var tail: seq<nat> := if KeptPage(pages[n]) then [n] else [];
      var ix := prev + tail;
      assert NonBlankPages(pages) == ix;
      forall i ensures i in ix <==> 0 <= i < |pages| && KeptPage(pages[i]) {
        if 0 <= i < n {
          assert init[i] == pages[i];
          assert i !in tail;
          assert i in ix <==> i in prev;
        } else if i == n {
          assert i !in prev;
          assert i in ix <==> i in tail;
        } else {
          assert i !in prev && i !in tail;
        }
      }
    }
  }

  /** Each part is the tagged text of one kept page, with the page's original
      1-based number: blank pages leave no gap in the parts but do count in
      the numbering. */
  lemma {:induction false} PdfPartsTagged(pages: seq<Option<string>>)
    ensures |PdfParts(pages)| == |NonBlankPages(pages)|
    ensures forall k :: 0 <= k < |NonBlankPages(pages)| ==>
      && NonBlankPages(pages)[k] < |pages|
      && PdfParts(pages)[k] == PageEntry(NonBlankPages(pages)[k], pages[NonBlankPages(pages)[k]].GetOr(""))
  {
    if pages != [] {
      var n := |pages| - 1;
      var init := pages[..n];
      PdfPartsTagged(init);
      var ix := NonBlankPages(init);
      var parts := PdfParts(init);
      if KeptPage(pages[n]) {
        assert NonBlankPages(pages) == ix + [n];
        assert PdfParts(pages) == parts + [PageEntry(n, pages[n].GetOr(""))];
        forall k | 0 <= k < |ix| + 1
          ensures (ix + [n])[k] < |pages|
          ensures (parts + [PageEntry(n, pages[n].GetOr(""))])[k] == PageEntry((ix + [n])[k], pages[(ix + [n])[k]].GetOr(""))
        {
          if k < |ix| {
            assert (ix + [n])[k] == ix[k];
            assert init[ix[k]] == pages[ix[k]];
          }
        }
      } else {
        assert NonBlankPages(pages) == ix;
        assert PdfParts(pages) == parts;
        forall k | 0 <= k < |ix| ensures pages[ix[k]] == init[ix[k]] {
        }
      }
    }
  }

  function PdfText(pages: seq<Option<string>>): string {
    Strip(Join(PdfParts(pages), "\n\n"))
  }

  /** `_extract_pdf`: tag and collect the non-blank pages, then join them. */
  method ExtractPdf(pages: seq<Option<string>>) returns (text: string)
    ensures text == PdfText(pages)
  {
    var parts: seq<string> := [];
    for i := 0 to |pages|
      invariant parts == PdfParts(pages[..i])
    {
      assert pages[..i + 1][..i] == pages[..i];
      var t := pages[i].GetOr("");
      if Strip(t) != [] {
        parts := parts + ["[PDF:page=" + NatToString(i + 1) + "]\n" + Strip(t)];
      }
    }
    assert pages[..|pages|] == pages;
    text := Strip(Join(parts, "\n\n"));
  }

  /** The stripped, non-blank texts, in order: each one is non-empty and has
      no whitespace at either end, and a list with no blank text keeps every
      text. */
  function Kept(texts: seq<Option<string>>): (r: seq<string>)
    ensures |r| <= |texts|
    ensures forall k :: 0 <= k < |r| ==> Trimmed(r[k])
    ensures (forall j :: 0 <= j < |texts| ==> !Blank(texts[j].GetOr(""))) ==> |r| == |texts|
  {
    if texts == [] then []
    else
      var t := Strip(texts[0].GetOr(""));
      var rest := Kept(texts[1..]);
      assert forall j :: 0 <= j < |texts| - 1 ==> texts[1..][j] == texts[j + 1];
      TrimmedCons(t, rest);
      (if t == [] then [] else [t]) + rest
  }

  lemma TrimmedCons(t: string, rest: seq<string>)
    requires forall k :: 0 <= k < |rest| ==> Trimmed(rest[k])
    ensures t != [] ==> Trimmed(t) ==> forall k :: 0 <= k < |[t] + rest| ==> Trimmed(([t] + rest)[k])
  {
    if t != [] && Trimmed(t) {
      forall k | 0 <= k < |[t] + rest| ensures Trimmed(([t] + rest)[k]) {
        if k > 0 {
          assert ([t] + rest)[k] == rest[k - 1];
        }
      }
    }
  }

  /** `_extract_docx`: every non-blank paragraph, stripped, one per line. */
  function DocxText(paragraphs: seq<Option<string>>): string
  {
    Strip(Join(Kept(paragraphs), "\n"))
  }

  /** The final `strip` of the DOCX extractor changes nothing: the text is
      exactly the kept paragraphs joined by newlines. */
  lemma DocxTextIsJoin(paragraphs: seq<Option<string>>)
    ensures DocxText(paragraphs) == Join(Kept(paragraphs), "\n")
  {
    JoinTrimmed(Kept(paragraphs), "\n");
  }

  /** A join of pieces that begin and end with non-space characters begins
      and ends likewise, so stripping it changes nothing. */
  lemma JoinTrimmed(parts: seq<string>, sep: string)
    requires forall k :: 0 <= k < |parts| ==> Trimmed(parts[k])
    ensures Strip(Join(parts, sep)) == Join(parts, sep)
  {
    if parts != [] {
      JoinEnds(parts, sep);
      StripKeepsTrimmed(Join(parts, sep));
    }
  }

  lemma {:induction false} JoinEnds(parts: seq<string>, sep: string)
    requires parts != [] && forall k :: 0 <= k < |parts| ==> parts[k] != []
    ensures var j := Join(parts, sep);
      j != [] && j[0] == parts[0][0] && j[|j| - 1] == parts[|parts| - 1][|parts[|parts| - 1]| - 1]
  {
    if |parts| > 1 {
      JoinEnds(parts[1..], sep);
    }
  }

  /** One spreadsheet row as a line: at most `maxCols` cells, empty cells as
      "", tab-separated, stripped. */
  function RowLine(row: seq<Option<string>>, maxCols: nat): string {
    Strip(Join(CellTexts(Take(row, maxCols)), "\t"))
  }

  function CellTexts(cells: seq<Option<string>>): (r: seq<string>)
    ensures |r| == |cells| && forall i :: 0 <= i < |cells| ==> r[i] == cells[i].GetOr("")
  {
    seq(|cells|, i requires 0 <= i < |cells| => cells[i].GetOr(""))
  }

  /** The non-blank lines of some rows: each one non-empty and with no
      whitespace at either end. */
  function RowLines(rows: seq<seq<Option<string>>>, maxCols: nat): (r: seq<string>)
    ensures |r| <= |rows|
    ensures forall k :: 0 <= k < |r| ==> Trimmed(r[k])
  {
    if rows == [] then []
    else
      var line := RowLine(rows[|rows| - 1], maxCols);
      RowLines(rows[..|rows| - 1], maxCols) + (if line == [] then [] else [line])
  }

  function SheetHeader(name: string): string {
    "[XLSX:sheet=" + name + "]"
  }

  /** The lines one sheet contributes: its header, the non-blank lines of its
      first `maxRows` rows, the truncation marker when it has more rows than
      that, and an empty separator line. */
  function SheetLines(sheet: Sheet, maxRows: nat, maxCols: nat): seq<string>
  {
    [SheetHeader(sheet.name)] + RowLines(Take(sheet.rows, maxRows), maxCols)
      + (if |sheet.rows| > maxRows then [RowsTruncated] else []) + [""]
  }

  /** A sheet gives at most `maxRows + 3` lines, opened by its header and
      closed by the empty separator, with the marker just before the
      separator when rows were dropped. */
  lemma SheetLinesShape(sheet: Sheet, maxRows: nat, maxCols: nat)
    ensures var r := SheetLines(sheet, maxRows, maxCols);
      && 2 <= |r| <= maxRows + 3
      && r[0] == SheetHeader(sheet.name) && r[|r| - 1] == ""
      && (|sheet.rows| > maxRows ==> r[|r| - 2] == RowsTruncated)
      && (|sheet.rows| <= maxRows ==> |r| <= |sheet.rows| + 2)
  {
  }

  /** The lines of several sheets, one after the other. */
  function SheetsLines(sheets: seq<Sheet>, maxRows: nat, maxCols: nat): seq<string>
  {
    if sheets == [] then []
    else SheetsLines(sheets[..|sheets| - 1], maxRows, maxCols) + SheetLines(sheets[|sheets| - 1], maxRows, maxCols)
  }

  function XlsxText(sheets: seq<Sheet>, maxSheets: nat, maxRows: nat, maxCols: nat): string {
    Strip(Join(SheetsLines(Take(sheets, maxSheets), maxRows, maxCols), "\n"))
  }

  /** Only the first `maxSheets` sheets, the first `maxRows` rows of each and
      the first `maxCols` cells of each row ever reach the text. */
  lemma XlsxCaps(sheets: seq<Sheet>, sheets': seq<Sheet>, maxSheets: nat, maxRows: nat, maxCols: nat)
    requires |Take(sheets, maxSheets)| == |Take(sheets', maxSheets)|
    requires forall i :: 0 <= i < |Take(sheets, maxSheets)| ==>
      SameWithinCaps(Take(sheets, maxSheets)[i], Take(sheets', maxSheets)[i], maxRows, maxCols)
    ensures XlsxText(sheets, maxSheets, maxRows, maxCols) == XlsxText(sheets', maxSheets, maxRows, maxCols)
  {
    SheetsWithinCaps(Take(sheets, maxSheets), Take(sheets', maxSheets), maxRows, maxCols);
  }

  /** Two sheets that agree on the name, on whether there are more than
      `maxRows` rows, and on the first `maxCols` cells of each of the first
      `maxRows` rows. */
  predicate SameWithinCaps(s: Sheet, s': Sheet, maxRows: nat, maxCols: nat) {
    && s.name == s'.name
    && (|s.rows| > maxRows <==> |s'.rows| > maxRows)
    && |Take(s.rows, maxRows)| == |Take(s'.rows, maxRows)|
    && forall j :: 0 <= j < |Take(s.rows, maxRows)| ==>
         Take(Take(s.rows, maxRows)[j], maxCols) == Take(Take(s'.rows, maxRows)[j], maxCols)
  }

  lemma {:induction false} SheetsWithinCaps(a: seq<Sheet>, b: seq<Sheet>, maxRows: nat, maxCols: nat)
    requires |a| == |b| && forall i :: 0 <= i < |a| ==> SameWithinCaps(a[i], b[i], maxRows, maxCols)
    ensures SheetsLines(a, maxRows, maxCols) == SheetsLines(b, maxRows, maxCols)
  {
    if a != [] {
      var n := |a| - 1;
      SheetsWithinCaps(a[..n], b[..n], maxRows, maxCols);
      RowsWithinCaps(Take(a[n].rows, maxRows), Take(b[n].rows, maxRows), maxCols);
    }
  }

  lemma {:induction false} RowsWithinCaps(a: seq<seq<Option<string>>>, b: seq<seq<Option<string>>>, maxCols: nat)
    requires |a| == |b| && forall j :: 0 <= j < |a| ==> Take(a[j], maxCols) == Take(b[j], maxCols)
    ensures RowLines(a, maxCols) == RowLines(b, maxCols)
  {
    if a != [] {
      RowsWithinCaps(a[..|a| - 1], b[..|b| - 1], maxCols);
    }
  }

  /** The rows loop of `_extract_xlsx` for one sheet: count each row, stop
      with the marker at row `maxRows + 1`, keep the non-blank lines. */
  method ExtractSheet(sheet: Sheet, maxRows: nat, maxCols: nat) returns (lines: seq<string>)
    ensures lines == SheetLines(sheet, maxRows, maxCols)
  {
    var rows := sheet.rows;
    var body: seq<string> := [];
    var rcount := 0;
    var truncated := false;
    while rcount < |rows|
      invariant rcount <= |rows| && rcount <= maxRows
      invariant body == RowLines(rows[..rcount], maxCols)
    {
      var row := rows[rcount];
      rcount := rcount + 1;
      if rcount > maxRows {
        truncated := true;
        break;
      }
      assert rows[..rcount][..rcount - 1] == rows[..rcount - 1];
      var line := RowLine(row, maxCols);
      if line != [] {
        body := body + [line];
      }
    }
    SheetBody(rows, maxRows, maxCols, rcount, truncated, body);
    lines := [SheetHeader(sheet.name)] + body + (if truncated then [RowsTruncated] else []) + [""];
  }

  /** How the rows loop ends: either it ran out of rows within the cap, or it
      stopped one row past the cap. */
  lemma SheetBody(rows: seq<seq<Option<string>>>, maxRows: nat, maxCols: nat, rcount: nat, truncated: bool, body: seq<string>)
    requires truncated ==> rcount == maxRows + 1 && rcount <= |rows| && body == RowLines(rows[..maxRows], maxCols)
    requires !truncated ==> rcount == |rows| <= maxRows && body == RowLines(rows[..rcount], maxCols)
    ensures body == RowLines(Take(rows, maxRows), maxCols) && (truncated <==> |rows| > maxRows)
  {
    if !truncated {
      assert rows[..rcount] == rows;
    }
  }

  /** `_extract_xlsx`: the first `maxSheets` sheets, their lines joined. */
  method ExtractXlsx(sheets: seq<Sheet>, maxSheets: nat, maxRows: nat, maxCols: nat) returns (text: string)
    ensures text == XlsxText(sheets, maxSheets, maxRows, maxCols)
  {
    var names := Take(sheets, maxSheets);
    var out: seq<string> := [];
    for i := 0 to |names|
      invariant out == SheetsLines(names[..i], maxRows, maxCols)
    {
      assert names[..i + 1][..i] == names[..i];
      var lines := ExtractSheet(names[i], maxRows, maxCols);
      out := out + lines;
    }
    assert names[..|names|] == names;
    text := Strip(Join(out, "\n"));
  }

  /** HTTP 415 detail for an extension outside the allow-list. */
  function UnsupportedDetail(ext: string): string {
    "Formato não suportado: ." + (if ext == "" then "?" else ext) + " (suportados: " + SupportedListing + ")"
  }

  /** The reader for a document extension raises on these bytes. */
  predicate ParserFails(ext: string, data: seq<byte>, parsers: Parsers) {
    || (ext == "pdf" && parsers.pdfPages(data).None?)
    || (ext == "docx" && parsers.docxParagraphs(data).None?)
    || (ext == "xlsx" && parsers.workbook(data).None?)
  }

  /** `extract_text_from_bytes` as a value: the extension decides, before any
      parser is consulted; plain text is decoded and stripped, and a reader
      that raises ends the extraction with its exception. */
  function ExtractedText(filename: string, data: seq<byte>, parsers: Parsers): (r: Result<string, UploadError>)
    ensures r.Err? <==> GetExt(filename) !in SupportedExt || ParserFails(GetExt(filename), data, parsers)
    ensures GetExt(filename) !in SupportedExt ==> r == Err(UnsupportedFormat(UnsupportedDetail(GetExt(filename))))
    ensures GetExt(filename) in SupportedExt && ParserFails(GetExt(filename), data, parsers) ==>
      r == Err(ParseFailed(GetExt(filename)))
    ensures GetExt(filename) in PlainExt ==> r == Ok(Strip(parsers.decode(data)))
  {
    var ext := GetExt(filename);
    if ext !in SupportedExt then Err(UnsupportedFormat(UnsupportedDetail(ext)))
    else if ext in PlainExt then
      PlainNotDocument(ext);
      Ok(Strip(parsers.decode(data)))
    else ReadDocument(ext, data, parsers)
  }

  /** No plain-text extension is one of the document formats. */
  lemma PlainNotDocument(ext: string)
    requires ext in PlainExt
    ensures ext != "pdf" && ext != "docx" && ext != "xlsx"
  {
  }

  /** The document formats, read by their parsers, with the decoding fallback
      for any other extension. */
  function ReadDocument(ext: string, data: seq<byte>, parsers: Parsers): (r: Result<string, UploadError>)
    ensures r.Err? <==> ParserFails(ext, data, parsers)
    ensures r.Err? ==> r == Err(ParseFailed(ext))
  {
    if ext == "pdf" then ReadWith(ext, parsers.pdfPages(data), PdfText)
    else if ext == "docx" then ReadWith(ext, parsers.docxParagraphs(data), DocxText)
    else if ext == "xlsx" then ReadWith(ext, parsers.workbook(data), XlsxDefault)
    else Ok(Strip(parsers.decode(data)))
  }

  /** A reader's result turned into text, or its exception. */
  function ReadWith<T>(ext: string, parsed: Option<T>, render: T -> string): (r: Result<string, UploadError>)
    ensures r.Err? <==> parsed.None?
    ensures r.Err? ==> r == Err(ParseFailed(ext))
    ensures r.Ok? ==> r.value == render(parsed.value)
  {
    match parsed
    case None => Err(ParseFailed(ext))
    case Some(v) => Ok(render(v))
  }

  /** `_extract_xlsx` with its default caps. */
  function XlsxDefault(sheets: seq<Sheet>): string {
    XlsxText(sheets, MaxSheets, MaxRows, MaxCols)
  }

  /** A refused extension is refused whatever the bytes and the parsers. */
  lemma RejectedBeforeParsing(filename: string, data: seq<byte>, data': seq<byte>, p: Parsers, p': Parsers)
    requires GetExt(filename) !in SupportedExt
    ensures ExtractedText(filename, data, p) == ExtractedText(filename, data', p')
  {
  }

  /** `extract_text_from_bytes`. */
  method ExtractTextFromBytes(filename: string, data: seq<byte>, parsers: Parsers) returns (r: Result<string, UploadError>)
    ensures r == ExtractedText(filename, data, parsers)
  {
    var ext := GetExt(filename);
    if ext !in SupportedExt {
      return Err(UnsupportedFormat(UnsupportedDetail(ext)));
    }
    if ext in PlainExt {
      return Ok(Strip(parsers.decode(data)));
    }
    if ext == "pdf" {
      var pages := parsers.pdfPages(data);
      if pages.None? {
        return Err(ParseFailed(ext));
      }
      var t := ExtractPdf(pages.value);
      return Ok(t);
    }
    if ext == "docx" {
      var paragraphs := parsers.docxParagraphs(data);
      if paragraphs.None? {
        return Err(ParseFailed(ext));
      }
      return Ok(DocxText(paragraphs.value));
    }
    if ext == "xlsx" {
      var sheets := parsers.workbook(data);
      if sheets.None? {
        return Err(ParseFailed(ext));
      }
      var t := ExtractXlsx(sheets.value, MaxSheets, MaxRows, MaxCols);
      return Ok(t);
    }
    return Ok(Strip(parsers.decode(data)));
  }

  // --------------------------------------------------------------- uploads

  /** An uploaded file: its name, when the client sent one, and its bytes. */
  datatype Upload = Upload(filename: Option<string>, data: seq<byte>)

  /** The name as an f-string renders it: a missing name prints as `None`. */
  function Shown(filename: Option<string>): string {
    match filename
    case None => "None"
    case Some(n) => n
  }

  /** The state of the upload loop: documents, warnings, bytes seen. */
  datatype Batch = Batch(docs: seq<string>, warnings: seq<string>, total: nat)

  /** The limits of one call. */
  datatype Limits = Limits(maxFileBytes: nat, maxTotalBytes: nat, maxCharsPerDoc: nat)

  const DefaultLimits := Limits(MaxFileBytes, MaxTotalBytes, MaxCharsPerDoc)

  function FileWarning(f: Upload, limits: Limits): string {
    Shown(f.filename) + ": truncado para " + NatToString(limits.maxFileBytes) + " bytes (PoC)"
  }

  function CharsWarning(f: Upload, limits: Limits): string {
    Shown(f.filename) + ": truncado para " + NatToString(limits.maxCharsPerDoc) + " chars (PoC)"
  }

  function Tagged(f: Upload, text: string): string {
    "[FILE:" + Shown(f.filename) + "]\n" + Strip(text)
  }

  /** Text extraction from a name and some bytes, as the upload loop uses it. */
  type Extractor = (string, seq<byte>) -> Result<string, UploadError>

  /** `extract_text_from_bytes` over given parsers. */
  function ExtractorOf(parsers: Parsers): Extractor {
    (name: string, data: seq<byte>) => ExtractedText(name, data, parsers)
  }

  /** What an admitted file with extracted text adds to the batch. */
  function Admitted(b: Batch, f: Upload, text: string, limits: Limits): Batch {
    var w1 := if |f.data| > limits.maxFileBytes then [FileWarning(f, limits)] else [];
    var w2 := if |text| > limits.maxCharsPerDoc then [CharsWarning(f, limits)] else [];
    var t := Take(text, limits.maxCharsPerDoc);
    Batch(b.docs + (if Strip(t) == [] then [] else [Tagged(f, t)]), b.warnings + w1 + w2, b.total + |f.data|)
  }

  /** Under the default limits, a single upload of more than 20 MiB is refused
      with 413 whatever its name and bytes: the budget is checked before the
      extension. */
  lemma BudgetBeforeFormat(f: Upload, extract: Extractor)
    requires |f.data| > MaxTotalBytes
    ensures Ingest([f], extract, DefaultLimits) == Err(UploadTooLarge(TotalTooLargeDetail))
  {
  }

  /** One turn of the upload loop. */
  function Step(b: Batch, f: Upload, extract: Extractor, limits: Limits): Result<Batch, UploadError>
  {
    if b.total + |f.data| > limits.maxTotalBytes then Err(UploadTooLarge(TotalTooLargeDetail))
    else
      match extract(f.filename.GetOr(""), Take(f.data, limits.maxFileBytes))
      case Err(e) => Err(e)
      case Ok(text) => Ok(Admitted(b, f, text, limits))
  }

  /** The whole loop, stopping at the first refusal. */
  function Ingest(files: seq<Upload>, extract: Extractor, limits: Limits): Result<Batch, UploadError>
  {
    if files == [] then Ok(Batch([], [], 0))
    else
      match Ingest(files[..|files| - 1], extract, limits)
      case Err(e) => Err(e)
      case Ok(b) => Step(b, files[|files| - 1], extract, limits)
  }

  function TotalSize(files: seq<Upload>): nat {
    if files == [] then 0 else TotalSize(files[..|files| - 1]) + |files[|files| - 1].data|
  }

  /** The file's cut bytes yield a text. */
  predicate Extracts(f: Upload, extract: Extractor, limits: Limits) {
    extract(f.filename.GetOr(""), Take(f.data, limits.maxFileBytes)).Ok?
  }

  predicate AllExtract(files: seq<Upload>, extract: Extractor, limits: Limits) {
    forall i :: 0 <= i < |files| ==> Extracts(files[i], extract, limits)
  }

  lemma AllExtractSnoc(files: seq<Upload>, extract: Extractor, limits: Limits)
    requires files != []
    ensures AllExtract(files, extract, limits) <==>
      AllExtract(files[..|files| - 1], extract, limits) && Extracts(files[|files| - 1], extract, limits)
  {
    var init := files[..|files| - 1];
    if AllExtract(init, extract, limits) && Extracts(files[|files| - 1], extract, limits) {
      forall i | 0 <= i < |files| ensures Extracts(files[i], extract, limits) {
        if i < |init| {
          assert files[i] == init[i];
        } else {
          assert i == |files| - 1;
        }
      }
    }
    if AllExtract(files, extract, limits) {
      forall i | 0 <= i < |init| ensures Extracts(init[i], extract, limits) {
        assert files[i] == init[i];
      }
    }
  }

  /** A file whose name has an extension on the allow-list. */
  predicate Supported(f: Upload) {
    GetExt(f.filename.GetOr("")) in SupportedExt
  }

  /** With the real extractor, a file yields a text exactly when its extension
      is supported and its reader does not raise on the cut bytes. */
  lemma ExtractsIff(f: Upload, parsers: Parsers, limits: Limits)
    ensures Extracts(f, ExtractorOf(parsers), limits) <==>
      Supported(f) && !ParserFails(GetExt(f.filename.GetOr("")), Take(f.data, limits.maxFileBytes), parsers)
  {
  }

  /** What one admitted file contributes: the byte count of the whole file,
      a warning for too many bytes and one for too many characters, each
      exactly when that cap is exceeded, and one document, exactly when the
      truncated text is not blank, whose text after its header is at most the
      character cap. */
  lemma AdmittedShape(b: Batch, f: Upload, text: string, limits: Limits)
    ensures Admitted(b, f, text, limits).total == b.total + |f.data|
    ensures b.docs <= Admitted(b, f, text, limits).docs && b.warnings <= Admitted(b, f, text, limits).warnings
    ensures |Admitted(b, f, text, limits).warnings| == |b.warnings|
      + (if |f.data| > limits.maxFileBytes then 1 else 0) + (if |text| > limits.maxCharsPerDoc then 1 else 0)
    ensures |Admitted(b, f, text, limits).docs| == |b.docs| + 1 <==> !Blank(Take(text, limits.maxCharsPerDoc))
    ensures |Admitted(b, f, text, limits).docs| <= |b.docs| + 1
    ensures |Admitted(b, f, text, limits).docs| == |b.docs| + 1 ==>
      |Admitted(b, f, text, limits).docs[|b.docs|]| <= |Shown(f.filename)| + 8 + limits.maxCharsPerDoc
  {
    var t := Take(text, limits.maxCharsPerDoc);
    assert |Strip(t)| <= limits.maxCharsPerDoc;
  }

  /** The call succeeds exactly when the untruncated sizes add up to at most
      the total budget and every file yields a text; the batch then has
      counted every byte, holds at most one document per file and at most two
      warnings per file. */
  lemma {:induction false} IngestOkIff(files: seq<Upload>, extract: Extractor, limits: Limits)
    ensures Ingest(files, extract, limits).Ok? <==>
      TotalSize(files) <= limits.maxTotalBytes && AllExtract(files, extract, limits)
    ensures Ingest(files, extract, limits).Ok? ==>
      var b := Ingest(files, extract, limits).value;
      b.total == TotalSize(files) && |b.docs| <= |files| && |b.warnings| <= 2 * |files|
  {
    if files != [] {
      var init := files[..|files| - 1];
      var f := files[|files| - 1];
      IngestOkIff(init, extract, limits);
      AllExtractSnoc(files, extract, limits);
      match Ingest(init, extract, limits)
      case Err(_) =>
      case Ok(b) =>
        StepOk(b, f, extract, limits);
    }
  }

  /** With the real extractor: the call succeeds exactly when the sizes fit
      the budget and every file has a supported extension whose reader does
      not raise on its cut bytes. */
  lemma IngestOkIffParsers(files: seq<Upload>, parsers: Parsers, limits: Limits)
    ensures Ingest(files, ExtractorOf(parsers), limits).Ok? <==>
      && TotalSize(files) <= limits.maxTotalBytes
      && forall i :: 0 <= i < |files| ==>
           Supported(files[i]) && !ParserFails(GetExt(files[i].filename.GetOr("")), Take(files[i].data, limits.maxFileBytes), parsers)
  {
    IngestOkIff(files, ExtractorOf(parsers), limits);
    forall i | 0 <= i < |files| {
      ExtractsIff(files[i], parsers, limits);
    }
  }

  /** One turn succeeds exactly when the running total stays within budget and
      the file yields a text. */
  lemma StepOk(b: Batch, f: Upload, extract: Extractor, limits: Limits)
    ensures Step(b, f, extract, limits).Ok? <==>
      b.total + |f.data| <= limits.maxTotalBytes && Extracts(f, extract, limits)
    ensures Step(b, f, extract, limits).Ok? ==>
      var r := Step(b, f, extract, limits).value;
      r.total == b.total + |f.data| && |r.docs| <= |b.docs| + 1 && |r.warnings| <= |b.warnings| + 2
  {
  }

  /** When every file yields a text, a call over the byte budget is refused
      with 413: the budget is checked before each file is read. */
  lemma {:induction false} OverBudgetRefused(files: seq<Upload>, extract: Extractor, limits: Limits)
    requires AllExtract(files, extract, limits) && TotalSize(files) > limits.maxTotalBytes
    ensures Ingest(files, extract, limits) == Err(UploadTooLarge(TotalTooLargeDetail))
  {
    var init := files[..|files| - 1];
    AllExtractSnoc(files, extract, limits);
    if TotalSize(init) > limits.maxTotalBytes {
      OverBudgetRefused(init, extract, limits);
    } else {
      IngestOkIff(init, extract, limits);
    }
  }

  lemma IngestSnoc(files: seq<Upload>, i: nat, extract: Extractor, limits: Limits)
    requires i < |files| && Ingest(files[..i], extract, limits).Ok?
    ensures Ingest(files[..i + 1], extract, limits) == Step(Ingest(files[..i], extract, limits).value, files[i], extract, limits)
  {
    assert files[..i + 1][..i] == files[..i];
  }

  /** An error on some file ends the whole call with that error. */
  lemma {:induction false} StopsAfterError(files: seq<Upload>, k: nat, extract: Extractor, limits: Limits)
    requires 0 < k <= |files| && Ingest(files[..k], extract, limits).Err?
    ensures Ingest(files, extract, limits) == Ingest(files[..k], extract, limits)
  {
    if k < |files| {
      assert files[..|files| - 1][..k] == files[..k];
      StopsAfterError(files[..|files| - 1], k, extract, limits);
    } else {
      assert files[..k] == files;
    }
  }

  /** The first file that pushes the running total over the byte budget ends
      the call with 413, whatever the files after it hold: they are never
      read. */
  lemma FirstOverflowRefused(files: seq<Upload>, k: nat, extract: Extractor, limits: Limits)
    requires k < |files| && Ingest(files[..k], extract, limits).Ok?
    requires Ingest(files[..k], extract, limits).value.total + |files[k].data| > limits.maxTotalBytes
    ensures Ingest(files, extract, limits) == Err(UploadTooLarge(TotalTooLargeDetail))
  {
    IngestSnoc(files, k, extract, limits);
    StopsAfterError(files, k + 1, extract, limits);
  }

  /** `extract_texts_from_uploads`; a missing file list is an empty one. */
  method ExtractTextsFromUploads(files: Option<seq<Upload>>, parsers: Parsers, limits: Limits)
    returns (r: Result<(seq<string>, seq<string>), UploadError>)
    ensures match Ingest(files.GetOr([]), ExtractorOf(parsers), limits)
      case Err(e) => r == Err(e)
      case Ok(b) => r == Ok((b.docs, b.warnings))
  {
    var fs := files.GetOr([]);
    ghost var extract := ExtractorOf(parsers);
    var docsText: seq<string> := [];
    var warnings: seq<string> := [];
    var total: nat := 0;
    for i := 0 to |fs|
      invariant Ingest(fs[..i], extract, limits) == Ok(Batch(docsText, warnings, total))
    {
      IngestSnoc(fs, i, extract, limits);
      var next := AdmitFile(fs[i], docsText, warnings, total, parsers, limits);
      if next.Err? {
        StopsAfterError(fs, i + 1, extract, limits);
        return Err(next.error);
      }
      docsText, warnings, total := next.value.docs, next.value.warnings, next.value.total;
    }
    assert fs[..|fs|] == fs;
    r := Ok((docsText, warnings));
  }

  /** One pass of the upload loop: add the file's size to the running total
      and refuse when it overflows, cut the bytes, warning when it does, and
      extract the text. */
  method AdmitFile(f: Upload, docsText: seq<string>, warnings: seq<string>, total: nat, parsers: Parsers, limits: Limits)
    returns (r: Result<Batch, UploadError>)
    ensures r == Step(Batch(docsText, warnings, total), f, ExtractorOf(parsers), limits)
  {
    if total + |f.data| > limits.maxTotalBytes {
      return Err(UploadTooLarge(TotalTooLargeDetail));
    }
    var data, warns := CutBytes(f, warnings, limits);
    var extracted := ExtractTextFromBytes(f.filename.GetOr(""), data, parsers);
    assert extracted == ExtractorOf(parsers)(f.filename.GetOr(""), Take(f.data, limits.maxFileBytes));
    if extracted.Err? {
      return Err(extracted.error);
    }
    var b := AddText(f, docsText, warns, total + |f.data|, extracted.value, limits);
    assert b == Admitted(Batch(docsText, warnings, total), f, extracted.value, limits);
    r := Ok(b);
  }

  /** The first part of the pass: cut the bytes to the per-file cap, warning
      when it does. */
  method CutBytes(f: Upload, warnings: seq<string>, limits: Limits) returns (data: seq<byte>, warns: seq<string>)
    ensures data == Take(f.data, limits.maxFileBytes)
    ensures warns == warnings + (if |f.data| > limits.maxFileBytes then [FileWarning(f, limits)] else [])
  {
    data := f.data;
    warns := warnings;
    if |data| > limits.maxFileBytes {
      warns := warns + [FileWarning(f, limits)];
      data := data[..limits.maxFileBytes];
    }
  }

  /** The rest of the pass: cut the text, warning when it does, and keep the
      tagged text when it is not blank. */
  method AddText(f: Upload, docsText: seq<string>, warnings: seq<string>, total: nat, text: string, limits: Limits)
    returns (b: Batch)
    ensures b == Batch(
      docsText + (if Strip(Take(text, limits.maxCharsPerDoc)) == [] then [] else [Tagged(f, Take(text, limits.maxCharsPerDoc))]),
      warnings + (if |text| > limits.maxCharsPerDoc then [CharsWarning(f, limits)] else []),
      total)
  {
    var warns := warnings;
    var t := text;
    if |t| > limits.maxCharsPerDoc {
      warns := warns + [CharsWarning(f, limits)];
      t := t[..limits.maxCharsPerDoc];
    }
    assert t == Take(text, limits.maxCharsPerDoc);
    assert warns == warnings + (if |text| > limits.maxCharsPerDoc then [CharsWarning(f, limits)] else []);
    var docs := docsText;
    if Strip(t) != [] {
      docs := docs + [Tagged(f, t)];
    }
    assert docs == docsText + (if Strip(t) == [] then [] else [Tagged(f, t)]);
    b := Batch(docs, warns, total);
  }
}
