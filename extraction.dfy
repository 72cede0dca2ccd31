/**
 * Content extraction: which extractor a path selects, what the two
 * extractors produce, and the log of external calls the workflow makes.
 * The extractors themselves (the cloud document-intelligence service and the
 * CSV reader) are oracles: functions passed in that succeed with a value or
 * fail with the message of the exception they raise.
 */
module Extraction {
  import opened Wrappers
  import opened Paths

  /** A table as the extractors hand it over: column names and rows of cells. */
  datatype Table = Table(columns: seq<string>, rows: seq<seq<string>>)

  /** The `(text, tables)` pair both extractors return. */
  datatype Content = Content(text: string, tables: seq<Table>)

  datatype Format = Pdf | Csv

  /** The external services, each a function from its input to what it returns or raises. */
  datatype Extractors = Extractors(
    analyzePdf: string -> Result<Content, string>,  // AzureDocumentIntelligence: extract_text and extract_tables
    readCsv: string -> Result<Table, string>,       // pd.read_csv
    tableText: Table -> string)                     // DataFrame.to_string(index=False)

  /** The external calls the workflow makes, in the order it makes them. */
  datatype Call =
    | SaveTemp(path: string)         // NamedTemporaryFile: create and write the uploaded bytes
    | AnalyzePdf(path: string)       // the document-intelligence extractor
    | ReadCsv(path: string)          // the CSV reader
    | Connect(deployment: string)    // connect_azure_open_ai
    | GetPrompt(name: string)        // the prompt renderer, with its secrets
    | Invoke(request: string)        // the language model

  predicate IsExtraction(c: Call)
  {
    c.AnalyzePdf? || c.ReadCsv?
  }

  predicate IsService(c: Call)
  {
    c.Connect? || c.GetPrompt? || c.Invoke?
  }

  /** The extractor a path selects: a case-insensitive test for ".pdf", then for ".csv". */
  function FormatOf(path: string): Option<Format>
  {
    var lowered := Lower(path);
    if EndsWith(lowered, ".pdf") then Some(Pdf)
    else if EndsWith(lowered, ".csv") then Some(Csv)
    else None
  }

  /** The format named by an already lowered extension. */
  function ExtensionFormat(e: string): Option<Format>
  {
    if e == ".pdf" then Some(Pdf) else if e == ".csv" then Some(Csv) else None
  }

  const UnsupportedPrefix: string := "Unsupported file format: "

  /** `str(e)` for the ValueError raised for any other suffix; it quotes the path's extension unlowered. */
  function UnsupportedFormat(path: string): string
  {
    UnsupportedPrefix + SplitExt(path).1
  }

  /** extract_content_from_pdf: the service's text and tables, or the exception it raised. */
  function ExtractPdf(x: Extractors, path: string): Result<Content, string>
  {
    x.analyzePdf(path)
  }

  /** extract_content_from_csv: one parsed table, rendered as the text, and wrapped as the only table. */
  function ExtractCsv(x: Extractors, path: string): Result<Content, string>
  {
    match x.readCsv(path)
    case Success(table) => Success(Content(x.tableText(table), [table]))
    case Failure(e) => Failure(e)
  }

  /** No string ends with both ".pdf" and ".csv": their last characters differ. */
  lemma PdfCsvExclusive(s: string)
    ensures !(EndsWith(s, ".pdf") && EndsWith(s, ".csv"))
  {
    if EndsWith(s, ".pdf") {
      assert s[|s| - 1] == ".pdf"[3];
    }
  }

  /**
   * The PDF extractor is chosen exactly for a lowered ".pdf" suffix, the CSV
   * one exactly for a lowered ".csv" suffix, and none for any other path; the
   * order of the two tests does not matter, since no path has both suffixes.
   */
  lemma FormatBySuffix(path: string)
    ensures FormatOf(path) == Some(Pdf) <==> EndsWith(Lower(path), ".pdf")
    ensures FormatOf(path) == Some(Csv) <==> EndsWith(Lower(path), ".csv")
    ensures FormatOf(path) == None <==> !EndsWith(Lower(path), ".pdf") && !EndsWith(Lower(path), ".csv")
  {
    PdfCsvExclusive(Lower(path));
  }

  /** The format test ignores case: lowering the path first changes nothing. */
  lemma FormatIgnoresCase(path: string)
    ensures FormatOf(Lower(path)) == FormatOf(path)
  {
    LowerIdempotent(path);
  }

  /** A path that ends in an extension selects exactly the format its lowered extension names. */
  lemma FormatOfExtension(root: string, e: string)
    requires IsExtension(e)
    ensures FormatOf(root + e) == ExtensionFormat(Lower(e))
  {
    LowerAppend(root, e);
    LowerKeepsExtension(e);
    KnownExtensions();
    ExtensionDecidesSuffix(Lower(root), Lower(e), ".pdf");
    ExtensionDecidesSuffix(Lower(root), Lower(e), ".csv");
    assert Lower(root + e) == Lower(root) + Lower(e);
  }

  lemma KnownExtensions()
    ensures IsExtension(".pdf") && IsExtension(".csv")
  {
  }

  /** A path whose last four characters hold no dot selects no extractor. */
  lemma FormatOfDotlessTail(root: string, tail: string)
    requires |tail| >= 4
    requires forall i :: 0 <= i < |tail| ==> tail[i] != '.'
    ensures FormatOf(root + tail) == None
  {
    LowerAppend(root, tail);
    LowerKeepsDotless(tail);
    DotlessTailLacksExtension(Lower(root), Lower(tail), ".pdf");
    DotlessTailLacksExtension(Lower(root), Lower(tail), ".csv");
  }
}
