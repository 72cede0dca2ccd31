/**
 * The session itself: `st.session_state` as an object whose four slots the
 * page's functions assign in place. Each method performs the steps of its
 * Python counterpart on the fields and is proved to end in the state, the
 * result and the call log that module Workflow defines for it.
 */
module Agent {
  import opened Wrappers
  import opened Paths
  import opened Extraction
  import opened Workflow

  /**
   * The service part of generate_summary: connect, fetch the prompt template,
   * send the request; an exception of any of them escapes and ends it.
   */
  method AskModel(invoice: Content, po: Content, svc: Services) returns (reply: Reply, calls: seq<Call>)
    ensures (reply, calls) == Complete(invoice, po, svc)
  {
    var connected := svc.connect(Deployment);
    calls := [Connect(Deployment)];
    if connected.Failure? {
      reply := Raised(connected.error);
      return;
    }
    var prompt := svc.getPrompt(PromptName);
    calls := [Connect(Deployment), GetPrompt(PromptName)];
    if prompt.Failure? {
      reply := Raised(prompt.error);
      return;
    }
    var promptText := prompt.value + "\n\nText: " + svc.show(invoice) + "," + svc.show(po);
    var response := svc.invoke(promptText);
    calls := [Connect(Deployment), GetPrompt(PromptName), Invoke(promptText)];
    if response.Failure? {
      reply := Raised(response.error);
      return;
    }
    reply := Returned(response.value);
  }

  class SessionState {
    var invoiceContent: Option<Content>
    var poContent: Option<Content>
    var invoicePath: Option<string>
    var poPath: Option<string>

    /** The four slots as a value. */
    function Snapshot(): State
      reads this
    {
      State(invoiceContent, poContent, invoicePath, poPath)
    }

    /** A new session: every slot starts as `None`. */
    constructor ()
      ensures Snapshot() == Initial && Consistent(Snapshot())
    {
      invoiceContent, poContent, invoicePath, poPath := None, None, None, None;
    }

    /** process_file: dispatch on the lowered suffix, store the content for the document type, swallow every failure. */
    method ProcessFile(filePath: string, documentType: string, x: Extractors) returns (r: Processed, calls: seq<Call>)
      modifies this
      ensures Step(Snapshot(), r, calls) == ProcessFileStep(old(Snapshot()), filePath, documentType, x)
    {
      var outcome: Result<Content, string>;
      var lowered := Lower(filePath);
      if EndsWith(lowered, ".pdf") {
        outcome, calls := ExtractPdf(x, filePath), [AnalyzePdf(filePath)];
      } else if EndsWith(lowered, ".csv") {
        outcome, calls := ExtractCsv(x, filePath), [ReadCsv(filePath)];
      } else {
        outcome, calls := Failure(UnsupportedFormat(filePath)), [];
      }
      match outcome {
        case Success(content) =>
          if documentType == InvoiceType {
            invoiceContent := Some(content);
          } else {
            poContent := Some(content);
          }
          r := Extracted(content);
        case Failure(e) =>
          r := Failed(ErrorPrefix + e);
      }
    }

    /**
     * process_uploaded_file: save the upload as `tempDir`/tmp`token` plus its
     * lowered extension, run process_file on it, then record the path for the
     * document type whatever process_file returned.
     */
    method ProcessUploadedFile(name: string, documentType: string, tempDir: string, token: string, x: Extractors)
      returns (result: Processed, tempPath: string, calls: seq<Call>)
      modifies this
      ensures Step(Snapshot(), Uploaded(result, tempPath), calls)
              == UploadStep(old(Snapshot()), name, documentType, tempDir, token, x)
      ensures Consistent(old(Snapshot())) ==> Consistent(Snapshot())
    {
      ghost var before := Snapshot();
      var fileExtension := Lower(SplitExt(name).1);
      tempPath := TempFilePath(tempDir, token, fileExtension);
      var processCalls;
      result, processCalls := ProcessFile(tempPath, documentType, x);
      if documentType == InvoiceType {
        invoicePath := Some(tempPath);
      } else {
        poPath := Some(tempPath);
      }
      calls := [SaveTemp(tempPath)] + processCalls;
      if Consistent(before) {
        UploadKeepsConsistent(before, name, documentType, tempDir, token, x);
      }
    }

    /** generate_summary: re-extract what is missing, check both contents, then call the services without catching anything. */
    method GenerateSummary(x: Extractors, svc: Services) returns (reply: Reply, calls: seq<Call>)
      modifies this
      ensures Step(Snapshot(), reply, calls) == SummaryStep(old(Snapshot()), x, svc)
      ensures Consistent(old(Snapshot())) ==> Consistent(Snapshot())
    {
      ghost var before := Snapshot();
      if Consistent(before) {
        SummaryKeepsConsistent(before, x, svc);
      }
      calls := [];
      if invoiceContent.None? || poContent.None? {
        if Truthy(invoicePath) && invoiceContent.None? {
          RefillRole(before, x, Invoice);
          var _, c := ProcessFile(invoicePath.value, InvoiceType, x);
          calls := c;
        }
        ghost var middle := Snapshot();
        assert middle == before.(invoiceContent := Obtained(before, x, Invoice));
        assert calls == LazyCalls(before, x, Invoice);
        if Truthy(poPath) && poContent.None? {
          RefillRole(middle, x, PurchaseOrder);
          var c1 := calls;
          var _, c := ProcessFile(poPath.value, PurchaseOrderType, x);
          calls := c1 + c;
        } else {
          assert calls + [] == calls;
        }
        assert Snapshot() == SummaryStep(before, x, svc).state;
        if invoiceContent.None? || poContent.None? {
          reply := Returned(NotAvailable);
          return;
        }
      } else {
        assert calls == LazyCalls(before, x, Invoice) + LazyCalls(before, x, PurchaseOrder);
      }
      var lazy := calls;
      var c;
      reply, c := AskModel(invoiceContent.value, poContent.value, svc);
      calls := lazy + c;
    }

    /** The Compare action of main: offered only when both path slots are truthy, and run when its button is clicked. */
    method Compare(clicked: bool, x: Extractors, svc: Services) returns (shown: Option<Reply>, calls: seq<Call>)
      modifies this
      ensures !(CompareOffered(old(Snapshot())) && clicked) ==>
                shown == None && calls == [] && Snapshot() == old(Snapshot())
      ensures CompareOffered(old(Snapshot())) && clicked ==>
                shown.Some? && Step(Snapshot(), shown.value, calls) == SummaryStep(old(Snapshot()), x, svc)
    {
      if Truthy(invoicePath) && Truthy(poPath) && clicked {
        var reply;
        reply, calls := GenerateSummary(x, svc);
        shown := Some(reply);
      } else {
        shown, calls := None, [];
      }
    }
  }
}
