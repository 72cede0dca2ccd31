# Invoice and PO reconciliation: the session workflow

This project models the workflow state machine of the Invoice and Purchase Order
comparison page (`reconcillation_agent.py`). One user session keeps four slots in
`st.session_state`: the extracted content and the temp-file path of the invoice,
and the same two for the purchase order. Three functions act on them:

- `process_file` picks an extractor by the case-insensitive suffix of the path
  (`.pdf` or `.csv`). It stores the content in the slot for its document type and
  turns every failure into an `"Error: ..."` string.
- `process_uploaded_file` saves the upload under a fresh temp path. The path keeps
  the upload's lowered extension. The function runs `process_file` on that path and
  then records the path for the role.
- `generate_summary` re-extracts each role that has a path but no content. It
  stops with a fixed error text when content is still missing. Otherwise it sends
  the prompt template followed by both contents to the language model and returns
  the reply unchanged.

Finally, `main` offers the Compare button only when both path slots are set.

The model has two layers.

- Module `Workflow` gives each operation as a function on a `State` value. The
  function returns the new state, the Python result and the log of external
  calls made (`Call`): saving the temp file, the PDF and CSV extractors,
  the connector, the prompt service and the model. The log makes claims like
  "no extractor is called" or "the model is never reached" something a contract can say.
- Class `Agent.SessionState` holds the four slots as fields. Its methods update
  those fields in place, the way the Python functions do. Each method is proved
  to end in exactly the state, result and call log that its `Workflow` function
  gives.

Module `Paths` covers the Python string and path operations the workflow
depends on: `str.lower`, `str.endswith`, `str.rfind`, `os.path.splitext`,
`os.path.join` and `tempfile` names. Module `Extraction` covers the choice of
extractor and what the two extractors return.

The external services are oracles passed in as function values (`Extractors`,
`Services`). Each one either returns a value or fails with its exception's text.
A caller can pass different oracles on each call, so nondeterministic services
are covered.

A new upload does not reset the role's content: `process_uploaded_file` writes
content only when extraction succeeds, so after a failed upload the older content
stays next to the new path (`FailedUploadKeepsContent`).

Some functions below only define an operation and carry no contract of their
own; their rows say what they define and name the lemmas that state their
properties.

## Model

| member | source | states |
|---|---|---|
| `Paths.Lower` | reconcillation_agent.py:54-56 | the model's ASCII-only `str.lower`: the result has the path's length and each character is the path's character with `A`-`Z` mapped to `a`-`z` |
| `Paths.SplitExt` | reconcillation_agent.py:108 | `os.path.splitext` splits a path into root and extension that concatenate back to it; the extension is empty or a dot followed by neither dots nor separators; where the split falls is stated by `Paths.SplitExtAppend`, `Paths.SplitExtNoDot` and `Paths.SplitExtLeadingDots` |
| `Paths.SplitExtAppend` | reconcillation_agent.py:108 | a root whose last component is not all dots, followed by an extension, splits back into exactly that root and extension |
| `Paths.SplitExtNoDot` | reconcillation_agent.py:108 | a path with no dot after its last separator has an empty extension and is its own root |
| `Paths.SplitExtLeadingDots` | reconcillation_agent.py:108 | when everything between the last separator and the last dot is dots (`.pdf`, `a/..pdf`), the extension is empty and the path is its own root |
| `Paths.EndsWith` | reconcillation_agent.py:54-56 | defines `str.endswith`: the suffix is no longer than the string and equals its tail; `Extraction.FormatBySuffix` and `Paths.TempFileSuffix` use it |
| `Paths.RFind` | reconcillation_agent.py:108 | `str.rfind`, as `os.path.splitext` uses it: the result is -1 or an index holding the character, and no later index holds it |
| `Paths.Join` | reconcillation_agent.py:111-113 | defines `os.path.join` (posixpath) of the temp directory and the drawn name; `Paths.JoinEndsWith` and `Paths.JoinAppend` state that the name ends the path and that a suffix of the name is a suffix of the path |
| `Paths.TempFilePath` | reconcillation_agent.py:111-113 | defines the path `NamedTemporaryFile(suffix=...)` creates: the directory joined with "tmp", eight drawn characters and the suffix; `Paths.TempFileSuffix` and `Paths.TempFileExtension` state its properties |
| `Paths.TempFileSuffix` | reconcillation_agent.py:111-113 | the temp file's path is at least as long as "tmp", the drawn name and the suffix, and ends with the suffix it was created with |
| `Paths.TempFileExtension` | reconcillation_agent.py:108-113 | `os.path.splitext` reads the creation suffix back from a temp path exactly, so the unsupported-format message quotes it |
| `Extraction.FormatOf` | reconcillation_agent.py:54-59 | defines the extractor choice: `.pdf` tested before `.csv` on the lowered path; `Extraction.FormatBySuffix` states it without the order of the tests |
| `Extraction.ExtractPdf` | reconcillation_agent.py:26-35 | defines `extract_content_from_pdf` as the service's text and tables or the exception it re-raises; `Workflow.ProcessFilePdf` states what `process_file` makes of it |
| `Extraction.ExtractCsv` | reconcillation_agent.py:37-49 | defines `extract_content_from_csv` as the table read, rendered as the text and wrapped as the only table, or the exception it re-raises; `Workflow.ProcessFileCsv` states what `process_file` makes of it |
| `Extraction.UnsupportedFormat` | reconcillation_agent.py:59 | defines the `ValueError` text, which quotes `os.path.splitext`'s unlowered extension; `Workflow.ProcessFileUnsupported` and `Workflow.UploadUnsupportedMessage` state it for `process_file` and for uploads |
| `Extraction.FormatBySuffix` | reconcillation_agent.py:54-59 | PDF is chosen exactly for a lowered `.pdf` suffix, CSV exactly for a lowered `.csv` suffix, and no extractor otherwise; no path ends with both |
| `Extraction.FormatIgnoresCase` | reconcillation_agent.py:54-56 | lowering a path first never changes the chosen extractor |
| `Extraction.FormatOfExtension` | reconcillation_agent.py:54-56 | a path that ends in an extension selects exactly the format its lowered extension names (`.pdf`, `.csv`, or none) |
| `Workflow.RoleOf` | reconcillation_agent.py:62-65 | defines the slot choice: document type `"invoice"` selects the invoice slots and every other value the purchase-order slots (also lines 127-130); `Workflow.ProcessFileOnlyRoleSlot` states it for `process_file` |
| `Workflow.TypeName` | reconcillation_agent.py:77-79 | the document types `generate_summary` passes, `"invoice"` and `"purchase_order"`, select the slots of the role being re-extracted |
| `Workflow.Truthy` | reconcillation_agent.py:76-78 | defines Python truthiness of a path slot: set and not the empty string (also line 171); `Workflow.UploadRecordsPath` states every recorded temp path is truthy |
| `Workflow.Attempt` | reconcillation_agent.py:54-59 | defines the dispatch and the extractor call it makes; `Workflow.ProcessFileDispatch`, `Workflow.ProcessFilePdf`, `Workflow.ProcessFileCsv` and `Workflow.ProcessFileUnsupported` state it |
| `Workflow.ProcessFileStep` | reconcillation_agent.py:51-70 | defines `process_file` on a state value; the `Workflow.ProcessFile...` lemmas state its dispatch, its storing and its error handling |
| `Workflow.ProcessFileDispatch` | reconcillation_agent.py:54-59 | `process_file`'s only call is the PDF extractor exactly when the lowered path ends with `.pdf`, the CSV extractor exactly when it ends with `.csv`, and it calls nothing exactly when it ends with neither |
| `Workflow.ProcessFileUnsupported` | reconcillation_agent.py:58-70 | a path that selects no extractor leaves the state unchanged and returns `Error: Unsupported file format: ` followed by the extension `os.path.splitext` gives for it |
| `Workflow.ProcessFilePdf` | reconcillation_agent.py:26-35 | a path whose lowered form ends with `.pdf` is sent once to the document-intelligence service; its text and tables are stored in the document type's slot and returned; a failure returns `Error: ` and the message with the state unchanged |
| `Workflow.ProcessFileCsv` | reconcillation_agent.py:37-57 | a path whose lowered form ends with `.csv` is read once by the CSV reader; the table, rendered as the text and wrapped as the only table, is stored in the document type's slot and returned; a failed read returns `Error: ` and the message with the state unchanged |
| `Workflow.ProcessFileOnlyRoleSlot` | reconcillation_agent.py:61-67 | on success the content goes to `invoice_content` when the document type is `"invoice"` and to `po_content` otherwise; no other slot changes |
| `Workflow.ProcessFileErrorsKeepState` | reconcillation_agent.py:68-70 | `process_file` never raises; it extracts exactly when the extractor succeeds; otherwise it returns `Error: ` plus the exception text, and every slot stays as it was |
| `Workflow.UploadStep` | reconcillation_agent.py:101-135 | defines `process_uploaded_file` on a state value; the `Workflow.Upload...` lemmas state its properties |
| `Workflow.UploadRecordsPath` | reconcillation_agent.py:107-132 | an upload always records its temp path, which is truthy, in its role's path slot, whether or not extraction succeeded; the other path slot does not change; the path ends with the name's lowered extension; the file is saved before any extraction; content changes only as `process_file` changes it |
| `Workflow.FailedUploadKeepsContent` | reconcillation_agent.py:115-130 | a failed upload leaves both content slots exactly as they were, including content from an earlier upload of the same role |
| `Workflow.UploadKeepsFormat` | reconcillation_agent.py:108-118 | the temp path selects the same extractor as the uploaded name when `splitext` finds an extension in the name; when it finds none, the temp path selects no extractor |
| `Workflow.UploadUnsupportedMessage` | reconcillation_agent.py:108-118 | an upload whose temp path selects no extractor fails with `Error: Unsupported file format: ` plus the name's lowered extension |
| `Workflow.LeadingDotNameLosesFormat` | reconcillation_agent.py:108-111 | the name `.pdf` ends with `.pdf`, but `splitext` finds no extension in it, so its temp path selects no extractor |
| `Workflow.LazyCalls` | reconcillation_agent.py:76-79 | defines the extraction calls of one role's re-extraction: those of one attempt on its path when the path is truthy and the content absent, none otherwise; `Workflow.LazyCallsAreExtractions` and `Workflow.SummaryTargetedReextraction` state their properties |
| `Workflow.Obtained` | reconcillation_agent.py:76-82 | defines the content one role holds after re-extraction: the content it had, else the content one attempt on its truthy path extracted, else none; `Workflow.RefillRole` states that one `process_file` call yields it |
| `Workflow.LazyCallsAreExtractions` | reconcillation_agent.py:76-79 | one role's re-extraction makes at most one call, and only extractor calls |
| `Workflow.SummaryStep` | reconcillation_agent.py:72-99 | defines `generate_summary` on a state value, role by role; the `Workflow.Summary...` lemmas state its properties and `Agent.SessionState.GenerateSummary` is proved to end where it says |
| `Workflow.Request` | reconcillation_agent.py:97 | defines the request text: the template, `"\n\nText: "`, the invoice content, `","` and the PO content; `Workflow.SummaryAssemblesRequest` states it is what the model receives |
| `Workflow.Complete` | reconcillation_agent.py:85-99 | defines the service part of `generate_summary`, none of which catches an exception; `Agent.AskModel` is proved equal to it |
| `Workflow.RefillRole` | reconcillation_agent.py:76-79 | one re-extraction of a role with a truthy path and no content makes exactly that role's extraction call and changes only that role's content slot |
| `Workflow.ExtractionsEmpty` | reconcillation_agent.py:76-79 | the extraction part of a call log is empty exactly when no call in the log is an extractor call, so `Extractions(calls) == []` means no extraction was made |
| `Workflow.SummaryNoReextraction` | reconcillation_agent.py:74 | with both contents present, `generate_summary` makes no extraction call and changes no slot |
| `Workflow.SummaryTargetedReextraction` | reconcillation_agent.py:74-79 | extraction calls are at most one for the invoice, then at most one for the PO; none is made for a role whose content is present or whose path is not truthy; a role that had content keeps it; a role newly filled holds exactly what the attempt on its path extracted; no path slot changes |
| `Workflow.SummaryStopsWithoutContent` | reconcillation_agent.py:81-83 | if either content is still absent after re-extraction, the result is the exact `Error: Invoice or PO content not available. ...` text and no connector, prompt or model call is made |
| `Workflow.SummaryAssemblesRequest` | reconcillation_agent.py:85-99 | with both contents available, the calls are connect, fetch prompt `PurchaseOrder`, then invoke the model on the template + `"\n\nText: "` + invoice + `","` + PO; a reply is returned verbatim and an invoke failure is raised |
| `Workflow.SummaryConnectFailureEscapes` | reconcillation_agent.py:85-86 | a connector failure is raised uncaught; no prompt is fetched and the model is not called |
| `Workflow.SummaryPromptFailureEscapes` | reconcillation_agent.py:87-95 | with the connector up, a failure of the prompt fetch (the renderer, its secrets or `get_prompt`) is raised uncaught and the model is not called |
| `Workflow.CompareOffered` | reconcillation_agent.py:171 | defines the guard: both path slots truthy; `Workflow.UploadsOfferCompare` and `Agent.SessionState.Compare` state when it holds and what it gates |
| `Workflow.UploadsOfferCompare` | reconcillation_agent.py:171 | Compare is not offered in a new session; it is offered after one invoice upload and one purchase-order upload, whatever the extraction results |
| `Workflow.InitialConsistent` | reconcillation_agent.py:17-24 | a new session holds no content without a path |
| `Workflow.UploadKeepsConsistent` | reconcillation_agent.py:118-130 | an upload never leaves content in a role that has no truthy path |
| `Workflow.SummaryKeepsConsistent` | reconcillation_agent.py:76-79 | re-extraction never leaves content in a role that has no truthy path |
| `Workflow.SummaryWithoutUploadFails` | reconcillation_agent.py:72-83 | in a consistent session where a role was never uploaded, `generate_summary` returns the not-available text and reaches no service |
| `Workflow.FailedUploadIsRetried` | reconcillation_agent.py:74-79 | after a failed upload into an empty role, the next `generate_summary` extracts that role's temp path again instead of treating the failure as cached |
| `Agent.AskModel` | reconcillation_agent.py:85-99 | the service part of `generate_summary` makes the connect, prompt and invoke calls and gives the reply that `Workflow.Complete` defines |
| `Agent.SessionState.constructor` | reconcillation_agent.py:17-24 | a session starts with all four slots `None` |
| `Agent.SessionState.ProcessFile` | reconcillation_agent.py:51-70 | the in-place `process_file` ends in the state, result and calls of `Workflow.ProcessFileStep` |
| `Agent.SessionState.ProcessUploadedFile` | reconcillation_agent.py:101-135 | the in-place `process_uploaded_file` ends in the state, result, temp path and calls of `Workflow.UploadStep`, and keeps the session consistent |
| `Agent.SessionState.GenerateSummary` | reconcillation_agent.py:72-99 | the in-place `generate_summary` ends in the state, reply and calls of `Workflow.SummaryStep`, and keeps the session consistent |
| `Agent.SessionState.Compare` | reconcillation_agent.py:171-183 | unless both paths are set and the button is clicked, nothing runs and nothing changes; otherwise the method runs exactly `generate_summary` |

## Left out

- Streamlit rendering is not modelled: page setup, columns, uploaders, buttons,
  progress bars, expanders, the spinner, markdown output and the download button
  (`invoice_po_comparison.md`, `text/markdown`). One example: the "Extracted
  Successfully" line is shown even when extraction failed. The only UI logic that
  is modelled is the Compare guard.
- The `except` branch of `process_uploaded_file` (lines 133-135) is not modelled.
  `process_file` never raises, so only the Streamlit calls could reach that branch.
- The internals of the extractors are left out. These are the document-intelligence
  service, `pd.read_csv` and `DataFrame.to_string`. Each is an oracle that
  returns a value or fails with a message.
- The connector, the prompt renderer with its secrets, and the language model are
  oracles. The prompt renderer's construction and `get_prompt` form one oracle,
  `getPrompt`.
- Python stringifies the `(text, tables)` pair inside the f-string. The model
  does not spell this out; it is the opaque `Services.show`.
- The temp file's bytes, their writing, and the uniqueness of the drawn names are
  not modelled. The temp directory and the eight drawn characters are parameters.
- Logging, `load_dotenv`, the secrets lookups and the startup credential check are
  environment plumbing and are not modelled.
- `generate_summary` takes `invoice_path` and `po_path` parameters but never uses
  them, so the model does not take them.
- `Paths.Lower`: maps only the ASCII letters, one character to one. Python's `str.lower`
  also lowers other Unicode letters, can change the length (`"İ".lower()` has two
  characters) and lowers a capital sigma by its context (`"ΑΣ".lower() == "ας"`).
  None of this reaches the `.pdf`/`.csv` test, since no other character lowers to one
  of the characters of those suffixes. It does change the lowered extension that the
  temp path and the unsupported-format message carry for a name with such letters in
  its extension; `Paths.TempFileExtension`, `Workflow.UploadRecordsPath` and
  `Workflow.UploadUnsupportedMessage` hold for the ASCII lowering only.
- `Paths.SplitExt`: uses the POSIX rules (separator `/`, no alternative separator).
  The Windows form of `os.path.splitext` is not modelled.
