/**
 * The per-session workflow of the reconciliation page, as functions on a
 * value of the session state. Each function returns the new state, what the
 * Python function returns or raises, and the external calls it made; the
 * class in module Agent performs the same steps on its fields and is proved
 * equal to these functions. The lemmas below state the workflow's rules.
 */
module Workflow {
  import opened Wrappers
  import opened Paths
  import opened Extraction

  datatype Role = Invoice | PurchaseOrder

  const InvoiceType: string := "invoice"
  const PurchaseOrderType: string := "purchase_order"

  /** Model deployment and prompt template that generate_summary asks for. */
  const Deployment: string := "gpt-4o-mini"
  const PromptName: string := "PurchaseOrder"

  /** process_file prefixes the text of every exception it swallows with this. */
  const ErrorPrefix: string := "Error: "

  const NotAvailable: string :=
    "Error: Invoice or PO content not available. Please extract both documents first."

  /** Only the document type "invoice" selects the invoice slots; every other value selects the purchase-order slots. */
  function RoleOf(documentType: string): Role
  {
    if documentType == InvoiceType then Invoice else PurchaseOrder
  }

  /** The document type generate_summary passes when it re-extracts a role. */
  function TypeName(role: Role): (t: string)
    ensures RoleOf(t) == role
  {
    match role
    case Invoice => InvoiceType
    case PurchaseOrder => PurchaseOrderType
  }

  /** The four slots of `st.session_state`, each `None` until first assigned. */
  datatype State = State(
    invoiceContent: Option<Content>,
    poContent: Option<Content>,
    invoicePath: Option<string>,
    poPath: Option<string>)

  const Initial: State := State(None, None, None, None)

  function ContentOf(s: State, role: Role): Option<Content>
  {
    match role
    case Invoice => s.invoiceContent
    case PurchaseOrder => s.poContent
  }

  function PathOf(s: State, role: Role): Option<string>
  {
    match role
    case Invoice => s.invoicePath
    case PurchaseOrder => s.poPath
  }

  function WithContent(s: State, role: Role, c: Content): State
  {
    match role
    case Invoice => s.(invoiceContent := Some(c))
    case PurchaseOrder => s.(poContent := Some(c))
  }

  function WithPath(s: State, role: Role, p: string): State
  {
    match role
    case Invoice => s.(invoicePath := Some(p))
    case PurchaseOrder => s.(poPath := Some(p))
  }

  /** Python truthiness of a path slot: set, and not the empty string. */
  predicate Truthy(path: Option<string>)
  {
    path.Some? && path.value != ""
  }

  /** What process_file returns: the content, or the text of the exception it swallowed. */
  datatype Processed = Extracted(content: Content) | Failed(message: string)

  /** What process_uploaded_file returns: process_file's result and the temp path. */
  datatype Uploaded = Uploaded(result: Processed, tempPath: string)

  /** generate_summary either returns a string or lets an exception of the services escape. */
  datatype Reply = Returned(text: string) | Raised(error: string)

  /** The language-model side, as oracles. `show` is how the f-string renders a content pair. */
  datatype Services = Services(
    connect: string -> Result<(), string>,
    getPrompt: string -> Result<string, string>,
    invoke: string -> Result<string, string>,
    show: Content -> string)

  datatype Step<R> = Step(state: State, result: R, calls: seq<Call>)

  /** The extraction process_file attempts for a path, with the external call it makes. */
  function Attempt(x: Extractors, path: string): (Result<Content, string>, seq<Call>)
  {
    match FormatOf(path)
    case Some(Pdf) => (ExtractPdf(x, path), [AnalyzePdf(path)])
    case Some(Csv) => (ExtractCsv(x, path), [ReadCsv(path)])
    case None => (Failure(UnsupportedFormat(path)), [])
  }

  /** process_file: extract, store the content in the role's slot, and turn any exception into an "Error: " string. */
  function ProcessFileStep(s: State, filePath: string, documentType: string, x: Extractors): Step<Processed>
  {
    var (outcome, calls) := Attempt(x, filePath);
    match outcome
    case Success(content) => Step(WithContent(s, RoleOf(documentType), content), Extracted(content), calls)
    case Failure(e) => Step(s, Failed(ErrorPrefix + e), calls)
  }

  /** process_uploaded_file: save the upload under a temp path with its lowered extension, process it, record the path. */
  function UploadStep(s: State, name: string, documentType: string, tempDir: string, token: string, x: Extractors): Step<Uploaded>
  {
    var extension := Lower(SplitExt(name).1);
    var tempPath := TempFilePath(tempDir, token, extension);
    var p := ProcessFileStep(s, tempPath, documentType, x);
    Step(WithPath(p.state, RoleOf(documentType), tempPath), Uploaded(p.result, tempPath), [SaveTemp(tempPath)] + p.calls)
  }

  /** The text sent to the language model: the template, a fixed separator, then both contents. */
  function Request(template: string, invoice: Content, po: Content, svc: Services): string
  {
    template + "\n\nText: " + svc.show(invoice) + "," + svc.show(po)
  }

  /** The service part of generate_summary; nothing in it catches an exception. */
  function Complete(invoice: Content, po: Content, svc: Services): (Reply, seq<Call>)
  {
    match svc.connect(Deployment)
    case Failure(e) => (Raised(e), [Connect(Deployment)])
    case Success(_) =>
      match svc.getPrompt(PromptName)
      case Failure(e) => (Raised(e), [Connect(Deployment), GetPrompt(PromptName)])
      case Success(template) =>
        var request := Request(template, invoice, po, svc);
        var calls := [Connect(Deployment), GetPrompt(PromptName), Invoke(request)];
        match svc.invoke(request)
        case Failure(e) => (Raised(e), calls)
        case Success(text) => (Returned(text), calls)
  }

  /** The extraction calls generate_summary makes for one role: one attempt, only when the path is truthy and the content absent. */
  function LazyCalls(s: State, x: Extractors, role: Role): seq<Call>
  {
    if ContentOf(s, role).None? && Truthy(PathOf(s, role)) then Attempt(x, PathOf(s, role).value).1 else []
  }

  /** The content one role holds after generate_summary's re-extraction: what it had, else what that attempt extracted. */
  function Obtained(s: State, x: Extractors, role: Role): Option<Content>
  {
    if ContentOf(s, role).Some? then ContentOf(s, role)
    else if Truthy(PathOf(s, role)) && Attempt(x, PathOf(s, role).value).0.Success? then
      Some(Attempt(x, PathOf(s, role).value).0.value)
    else None
  }

  /**
   * generate_summary, role by role: each role obtains its content on its own;
   * without both, the fixed error text; with both, the services. The method
   * Agent.SessionState.GenerateSummary does the same steps one after another
   * on the session's fields and is proved to end where this function says.
   */
  function SummaryStep(s: State, x: Extractors, svc: Services): Step<Reply>
  {
    var invoice := Obtained(s, x, Invoice);
    var po := Obtained(s, x, PurchaseOrder);
    var t := s.(invoiceContent := invoice, poContent := po);
    var lazy := LazyCalls(s, x, Invoice) + LazyCalls(s, x, PurchaseOrder);
    if invoice.None? || po.None? then
      Step(t, Returned(NotAvailable), lazy)
    else
      var (reply, calls) := Complete(invoice.value, po.value, svc);
      Step(t, reply, lazy + calls)
  }

  /** The guard in main: the Compare button is offered only when both path slots are truthy. */
  predicate CompareOffered(s: State)
  {
    Truthy(s.invoicePath) && Truthy(s.poPath)
  }

  /** No content is held for a role without a recorded path. */
  predicate Consistent(s: State)
  {
    (s.invoiceContent.Some? ==> Truthy(s.invoicePath)) && (s.poContent.Some? ==> Truthy(s.poPath))
  }

  // ---------------------------------------------------------------------------
  // The extraction calls within a call log.

  function Extractions(calls: seq<Call>): (r: seq<Call>)
    ensures forall i :: 0 <= i < |r| ==> IsExtraction(r[i])
    ensures |r| <= |calls|
  {
    if calls == [] then []
    else (if IsExtraction(calls[0]) then [calls[0]] else []) + Extractions(calls[1..])
  }

  lemma {:induction false} ExtractionsAppend(a: seq<Call>, b: seq<Call>)
    ensures Extractions(a + b) == Extractions(a) + Extractions(b)
  {
    if a != [] {
      assert (a + b)[0] == a[0];
      assert (a + b)[1..] == a[1..] + b;
      ExtractionsAppend(a[1..], b);
    } else {
      assert a + b == b;
    }
  }

  /** A log has no extraction calls exactly when its extraction part is empty: the filter drops none. */
  lemma {:induction false} ExtractionsEmpty(calls: seq<Call>)
    ensures Extractions(calls) == [] <==> forall i :: 0 <= i < |calls| ==> !IsExtraction(calls[i])
  {
    if calls != [] {
      ExtractionsEmpty(calls[1..]);
      assert forall i :: 1 <= i < |calls| ==> calls[i] == calls[1..][i - 1];
    }
  }

  lemma {:induction false} ExtractionsOfServices(calls: seq<Call>)
    requires forall i :: 0 <= i < |calls| ==> IsService(calls[i])
    ensures Extractions(calls) == []
  {
    if calls != [] {
      ExtractionsOfServices(calls[1..]);
    }
  }

  // ---------------------------------------------------------------------------
  // process_file

  /**
   * Dispatch: `process_file` calls the PDF extractor exactly for a path whose
   * lowered form ends with ".pdf", the CSV extractor exactly for one ending with
   * ".csv", and no extractor for any other path.
   */
  lemma ProcessFileDispatch(s: State, path: string, documentType: string, x: Extractors)
    ensures var calls := ProcessFileStep(s, path, documentType, x).calls;
      && (calls == [AnalyzePdf(path)] <==> EndsWith(Lower(path), ".pdf"))
      && (calls == [ReadCsv(path)] <==> EndsWith(Lower(path), ".csv"))
      && (calls == [] <==> !EndsWith(Lower(path), ".pdf") && !EndsWith(Lower(path), ".csv"))
  {
    FormatBySuffix(path);
  }

  /**
   * A PDF path: the document-intelligence service is called once on it; its text
   * and tables are stored for the document type and returned, and a failure of the
   * service comes back as "Error: " and its message with the state unchanged.
   */
  lemma ProcessFilePdf(s: State, path: string, documentType: string, x: Extractors)
    requires EndsWith(Lower(path), ".pdf")
    ensures var r := ProcessFileStep(s, path, documentType, x);
      && r.calls == [AnalyzePdf(path)]
      && (x.analyzePdf(path).Success? ==>
            && r.result == Extracted(x.analyzePdf(path).value)
            && r.state == WithContent(s, RoleOf(documentType), x.analyzePdf(path).value))
      && (x.analyzePdf(path).Failure? ==>
            r.result == Failed(ErrorPrefix + x.analyzePdf(path).error) && r.state == s)
  {
    FormatBySuffix(path);
  }

  /**
   * A CSV path: the CSV reader is called once on it; the table read, rendered as
   * the text and wrapped as the only table, is stored for the document type and
   * returned, and a failed read comes back as "Error: " and its message with the
   * state unchanged.
   */
  lemma ProcessFileCsv(s: State, path: string, documentType: string, x: Extractors)
    requires EndsWith(Lower(path), ".csv")
    ensures var r := ProcessFileStep(s, path, documentType, x);
      && r.calls == [ReadCsv(path)]
      && (x.readCsv(path).Success? ==>
            var content := Content(x.tableText(x.readCsv(path).value), [x.readCsv(path).value]);
            r.result == Extracted(content) && r.state == WithContent(s, RoleOf(documentType), content))
      && (x.readCsv(path).Failure? ==>
            r.result == Failed(ErrorPrefix + x.readCsv(path).error) && r.state == s)
  {
    FormatBySuffix(path);
  }

  /** A path that selects no extractor yields the unsupported-format error and leaves the state unchanged. */
  lemma ProcessFileUnsupported(s: State, path: string, documentType: string, x: Extractors)
    requires FormatOf(path) == None
    ensures var r := ProcessFileStep(s, path, documentType, x);
      r.state == s && r.result == Failed(ErrorPrefix + UnsupportedPrefix + SplitExt(path).1)
  {
  }

  /**
   * A successful extraction stores the content in the slot of its document type,
   * "invoice" or anything else, and changes no other slot.
   */
  lemma ProcessFileOnlyRoleSlot(s: State, path: string, documentType: string, x: Extractors)
    ensures var r := ProcessFileStep(s, path, documentType, x);
      r.result.Extracted? ==>
        && r.state.invoicePath == s.invoicePath
        && r.state.poPath == s.poPath
        && (documentType == "invoice" ==>
              r.state.invoiceContent == Some(r.result.content) && r.state.poContent == s.poContent)
        && (documentType != "invoice" ==>
              r.state.poContent == Some(r.result.content) && r.state.invoiceContent == s.invoiceContent)
  {
  }

  /**
   * process_file never raises: it extracts exactly when the extractor succeeds,
   * and otherwise returns "Error: " and the exception's text with the state untouched,
   * so content stored by an earlier extraction survives.
   */
  lemma ProcessFileErrorsKeepState(s: State, path: string, documentType: string, x: Extractors)
    ensures var r := ProcessFileStep(s, path, documentType, x);
      && (r.result.Extracted? <==> Attempt(x, path).0.Success?)
      && (r.result.Failed? ==>
            r.state == s
            && r.result.message == ErrorPrefix + Attempt(x, path).0.error
            && r.result.message[..|ErrorPrefix|] == ErrorPrefix)
  {
  }

  // ---------------------------------------------------------------------------
  // process_uploaded_file

  /**
   * The upload always records its temp path in the role's path slot, whether or
   * not extraction succeeded; the other path slot is untouched. The temp path
   * ends in the lowered extension of the uploaded name, the file is saved before
   * any extraction, and the content slots change exactly as process_file changes them.
   */
  lemma UploadRecordsPath(s: State, name: string, documentType: string, dir: string, token: string, x: Extractors)
    ensures var r := UploadStep(s, name, documentType, dir, token, x);
      var t := r.result.tempPath;
      var p := ProcessFileStep(s, t, documentType, x);
      && EndsWith(t, Lower(SplitExt(name).1))
      && PathOf(r.state, RoleOf(documentType)) == Some(t)
      && Truthy(Some(t))
      && (documentType == "invoice" ==> r.state.poPath == s.poPath)
      && (documentType != "invoice" ==> r.state.invoicePath == s.invoicePath)
      && r.state.invoiceContent == p.state.invoiceContent
      && r.state.poContent == p.state.poContent
      && r.result.result == p.result
      && r.calls == [SaveTemp(t)] + p.calls
  {
    TempFileSuffix(dir, token, Lower(SplitExt(name).1));
  }

  /**
   * A failed upload leaves both content slots as they were: content of an
   * earlier upload of the same role is not reset.
   */
  lemma FailedUploadKeepsContent(s: State, name: string, documentType: string, dir: string, token: string, x: Extractors)
    ensures var r := UploadStep(s, name, documentType, dir, token, x);
      r.result.result.Failed? ==>
        r.state.invoiceContent == s.invoiceContent && r.state.poContent == s.poContent
  {
  }

  /**
   * The temp path selects the same extractor as the uploaded name whenever
   * `os.path.splitext` finds an extension in the name, and none when it finds none.
   */
  lemma {:induction false} UploadKeepsFormat(name: string, dir: string, token: string)
    requires IsTempToken(token)
    ensures var ext := SplitExt(name).1;
      FormatOf(TempFilePath(dir, token, Lower(ext))) == if ext == "" then None else FormatOf(name)
  {
    var (root, ext) := SplitExt(name);
    var e := Lower(ext);
    var stem := "tmp" + token;
    var base := Join(dir, stem);
    JoinAppend(dir, stem, e);
    assert TempFilePath(dir, token, e) == base + e;
    if ext == "" {
      assert base + e == base;
      JoinEndsWith(dir, stem);
      FormatOfDotlessTail(base[..|base| - |stem|], stem);
    } else {
      LowerKeepsExtension(ext);
      FormatOfExtension(base, e);
      FormatOfExtension(root, ext);
      LowerIdempotent(ext);
    }
  }

  /**
   * When extraction of an upload fails for its format, the message quotes the
   * lowered extension of the uploaded name.
   */
  lemma UploadUnsupportedMessage(s: State, name: string, documentType: string, dir: string, token: string, x: Extractors)
    requires IsTempToken(token)
    ensures var r := UploadStep(s, name, documentType, dir, token, x);
      FormatOf(r.result.tempPath) == None ==>
        r.result.result == Failed(ErrorPrefix + UnsupportedPrefix + Lower(SplitExt(name).1))
  {
    var e := Lower(SplitExt(name).1);
    if SplitExt(name).1 != "" {
      LowerKeepsExtension(SplitExt(name).1);
    }
    var t := TempFilePath(dir, token, e);
    TempFileExtension(dir, token, e);
    if FormatOf(t) == None {
      ProcessFileUnsupported(s, t, documentType, x);
    }
  }

  /**
   * A name whose only dot begins it, such as ".pdf", selects the PDF extractor by
   * its suffix, but `os.path.splitext` gives it no extension, so its temp path
   * selects none.
   */
  lemma LeadingDotNameLosesFormat(dir: string, token: string)
    requires IsTempToken(token)
    ensures FormatOf(".pdf") == Some(Pdf)
    ensures SplitExt(".pdf").1 == ""
    ensures FormatOf(TempFilePath(dir, token, Lower(SplitExt(".pdf").1))) == None
  {
    var p := ".pdf";
    assert Lower(p) == p;
    assert RFind(p, '.') == 0;
    assert RFind(p, '/') == -1;
    UploadKeepsFormat(p, dir, token);
  }

  // ---------------------------------------------------------------------------
  // generate_summary

  lemma LazyCallsAreExtractions(s: State, x: Extractors, role: Role)
    ensures Extractions(LazyCalls(s, x, role)) == LazyCalls(s, x, role)
    ensures |LazyCalls(s, x, role)| <= 1
  {
    var c := LazyCalls(s, x, role);
    if c != [] {
      assert c[1..] == [];
    }
  }

  lemma CompleteCallsAreServices(invoice: Content, po: Content, svc: Services)
    ensures var calls := Complete(invoice, po, svc).1;
      forall i :: 0 <= i < |calls| ==> IsService(calls[i])
  {
  }

  /** When both contents are present at entry, no extraction is attempted and the state is unchanged. */
  lemma SummaryNoReextraction(s: State, x: Extractors, svc: Services)
    requires s.invoiceContent.Some? && s.poContent.Some?
    ensures var r := SummaryStep(s, x, svc);
      r.state == s && Extractions(r.calls) == []
  {
    var r := SummaryStep(s, x, svc);
    var c := Complete(s.invoiceContent.value, s.poContent.value, svc).1;
    assert LazyCalls(s, x, Invoice) + LazyCalls(s, x, PurchaseOrder) == [];
    assert r.calls == [] + c == c;
    CompleteCallsAreServices(s.invoiceContent.value, s.poContent.value, svc);
    ExtractionsOfServices(c);
  }

  /**
   * Re-extraction is targeted: the extraction calls are at most one for the
   * invoice and then at most one for the purchase order, each only for a role
   * whose path is truthy and whose content is absent. Each role ends up with
   * the content it had or the one just extracted, and no path slot changes.
   */
  lemma SummaryTargetedReextraction(s: State, x: Extractors, svc: Services)
    ensures var r := SummaryStep(s, x, svc);
      && Extractions(r.calls) == LazyCalls(s, x, Invoice) + LazyCalls(s, x, PurchaseOrder)
      && |LazyCalls(s, x, Invoice)| <= 1 && |LazyCalls(s, x, PurchaseOrder)| <= 1
      && (s.invoiceContent.Some? ==> LazyCalls(s, x, Invoice) == [])
      && (s.poContent.Some? ==> LazyCalls(s, x, PurchaseOrder) == [])
      && (r.state.invoiceContent.Some? <==> s.invoiceContent.Some? || (|LazyCalls(s, x, Invoice)| == 1 && Attempt(x, s.invoicePath.value).0.Success?))
      && (r.state.poContent.Some? <==> s.poContent.Some? || (|LazyCalls(s, x, PurchaseOrder)| == 1 && Attempt(x, s.poPath.value).0.Success?))
      && (s.invoiceContent.Some? ==> r.state.invoiceContent == s.invoiceContent)
      && (s.poContent.Some? ==> r.state.poContent == s.poContent)
      && r.state.invoicePath == s.invoicePath && r.state.poPath == s.poPath
      && (!Truthy(s.invoicePath) ==> LazyCalls(s, x, Invoice) == [])
      && (!Truthy(s.poPath) ==> LazyCalls(s, x, PurchaseOrder) == [])
      && (s.invoiceContent.None? && r.state.invoiceContent.Some? ==>
            s.invoicePath.Some? && r.state.invoiceContent == Some(Attempt(x, s.invoicePath.value).0.value))
      && (s.poContent.None? && r.state.poContent.Some? ==>
            s.poPath.Some? && r.state.poContent == Some(Attempt(x, s.poPath.value).0.value))
  {
    var r := SummaryStep(s, x, svc);
    var lazy := LazyCalls(s, x, Invoice) + LazyCalls(s, x, PurchaseOrder);
    LazyCallsAreExtractions(s, x, Invoice);
    LazyCallsAreExtractions(s, x, PurchaseOrder);
    ExtractionsAppend(LazyCalls(s, x, Invoice), LazyCalls(s, x, PurchaseOrder));
    var invoice := Obtained(s, x, Invoice);
    var po := Obtained(s, x, PurchaseOrder);
    if invoice.Some? && po.Some? {
      var c := Complete(invoice.value, po.value, svc).1;
      CompleteCallsAreServices(invoice.value, po.value, svc);
      ExtractionsOfServices(c);
      ExtractionsAppend(lazy, c);
    }
    AttemptCalls(x, s.invoicePath);
    AttemptCalls(x, s.poPath);
  }

  /**
   * One re-extraction inside generate_summary: process_file on the role's path
   * leaves the role's content as Obtained says, changes no other slot, and
   * makes the calls LazyCalls names.
   */
  lemma RefillRole(s: State, x: Extractors, role: Role)
    requires ContentOf(s, role).None? && Truthy(PathOf(s, role))
    ensures var r := ProcessFileStep(s, PathOf(s, role).value, TypeName(role), x);
      && r.calls == LazyCalls(s, x, role)
      && r.state == match role
                    case Invoice => s.(invoiceContent := Obtained(s, x, Invoice))
                    case PurchaseOrder => s.(poContent := Obtained(s, x, PurchaseOrder))
  {
  }

  /** An attempt makes exactly one call when it reaches an extractor, and none when it fails before. */
  lemma AttemptCalls(x: Extractors, path: Option<string>)
    ensures path.Some? ==> (|Attempt(x, path.value).1| == 1 || Attempt(x, path.value).0.Failure?)
  {
  }

  /**
   * If either content is still absent after re-extraction, generate_summary
   * returns the fixed error text and reaches none of the services.
   */
  lemma SummaryStopsWithoutContent(s: State, x: Extractors, svc: Services)
    requires Obtained(s, x, Invoice).None? || Obtained(s, x, PurchaseOrder).None?
    ensures var r := SummaryStep(s, x, svc);
      && r.result == Returned(NotAvailable)
      && r.calls == LazyCalls(s, x, Invoice) + LazyCalls(s, x, PurchaseOrder)
      && forall i :: 0 <= i < |r.calls| ==> !IsService(r.calls[i])
  {
    LazyCallsAreExtractions(s, x, Invoice);
    LazyCallsAreExtractions(s, x, PurchaseOrder);
  }

  /**
   * With both contents available, the request is the template, "\n\nText: ",
   * the invoice content, "," and the purchase-order content, and the model's
   * reply is returned verbatim; a failure of the model escapes as raised.
   */
  lemma SummaryAssemblesRequest(s: State, x: Extractors, svc: Services, template: string)
    requires Obtained(s, x, Invoice).Some? && Obtained(s, x, PurchaseOrder).Some?
    requires svc.connect(Deployment).Success? && svc.getPrompt(PromptName) == Success(template)
    ensures var r := SummaryStep(s, x, svc);
      var inv := Obtained(s, x, Invoice).value;
      var po := Obtained(s, x, PurchaseOrder).value;
      var request := template + "\n\nText: " + svc.show(inv) + "," + svc.show(po);
      && r.calls == LazyCalls(s, x, Invoice) + LazyCalls(s, x, PurchaseOrder)
                    + [Connect(Deployment), GetPrompt(PromptName), Invoke(request)]
      && (svc.invoke(request).Success? ==> r.result == Returned(svc.invoke(request).value))
      && (svc.invoke(request).Failure? ==> r.result == Raised(svc.invoke(request).error))
  {
  }

  /** A failure of the connector escapes at once: no prompt is fetched and the model is not called. */
  lemma SummaryConnectFailureEscapes(s: State, x: Extractors, svc: Services)
    requires Obtained(s, x, Invoice).Some? && Obtained(s, x, PurchaseOrder).Some?
    requires svc.connect(Deployment).Failure?
    ensures var r := SummaryStep(s, x, svc);
      && r.result == Raised(svc.connect(Deployment).error)
      && r.calls == LazyCalls(s, x, Invoice) + LazyCalls(s, x, PurchaseOrder) + [Connect(Deployment)]
  {
  }

  /** A failure of the prompt fetch escapes too: the model is not called. */
  lemma SummaryPromptFailureEscapes(s: State, x: Extractors, svc: Services)
    requires Obtained(s, x, Invoice).Some? && Obtained(s, x, PurchaseOrder).Some?
    requires svc.connect(Deployment).Success? && svc.getPrompt(PromptName).Failure?
    ensures var r := SummaryStep(s, x, svc);
      && r.result == Raised(svc.getPrompt(PromptName).error)
      && r.calls == LazyCalls(s, x, Invoice) + LazyCalls(s, x, PurchaseOrder)
                    + [Connect(Deployment), GetPrompt(PromptName)]
  {
  }

  // ---------------------------------------------------------------------------
  // The session as a whole

  /** Comparison is offered exactly when both path slots are truthy, which two uploads, one per role, always achieve. */
  lemma UploadsOfferCompare(s: State, invName: string, poName: string, dir: string, t1: string, t2: string, x: Extractors)
    ensures var u1 := UploadStep(s, invName, InvoiceType, dir, t1, x);
      var u2 := UploadStep(u1.state, poName, PurchaseOrderType, dir, t2, x);
      CompareOffered(u2.state) && !CompareOffered(Initial)
  {
    TempFileSuffix(dir, t1, Lower(SplitExt(invName).1));
    TempFileSuffix(dir, t2, Lower(SplitExt(poName).1));
  }

  lemma InitialConsistent()
    ensures Consistent(Initial)
  {
  }

  /** Uploads keep content only where a path is recorded. */
  lemma UploadKeepsConsistent(s: State, name: string, documentType: string, dir: string, token: string, x: Extractors)
    requires Consistent(s)
    ensures Consistent(UploadStep(s, name, documentType, dir, token, x).state)
  {
    TempFileSuffix(dir, token, Lower(SplitExt(name).1));
  }

  /** generate_summary keeps content only where a path is recorded. */
  lemma SummaryKeepsConsistent(s: State, x: Extractors, svc: Services)
    requires Consistent(s)
    ensures Consistent(SummaryStep(s, x, svc).state)
  {
    SummaryTargetedReextraction(s, x, svc);
  }

  /**
   * In a consistent session where some role was never uploaded, generate_summary
   * fails with the fixed error text and calls no service.
   */
  lemma SummaryWithoutUploadFails(s: State, x: Extractors, svc: Services)
    requires Consistent(s)
    requires !Truthy(s.invoicePath) || !Truthy(s.poPath)
    ensures var r := SummaryStep(s, x, svc);
      r.result == Returned(NotAvailable) && forall i :: 0 <= i < |r.calls| ==> !IsService(r.calls[i])
  {
    SummaryStopsWithoutContent(s, x, svc);
  }

  /**
   * A failed upload into an empty role is not cached as a failure: the next
   * generate_summary attempts extraction of that role's temp path again.
   */
  lemma FailedUploadIsRetried(s: State, name: string, documentType: string, dir: string, token: string,
                              x: Extractors, x': Extractors)
    requires ContentOf(s, RoleOf(documentType)).None?
    ensures var u := UploadStep(s, name, documentType, dir, token, x);
      u.result.result.Failed? ==>
        && ContentOf(u.state, RoleOf(documentType)).None?
        && LazyCalls(u.state, x', RoleOf(documentType)) == Attempt(x', u.result.tempPath).1
  {
    UploadRecordsPath(s, name, documentType, dir, token, x);
    FailedUploadKeepsContent(s, name, documentType, dir, token, x);
  }
}
