# GeoObCode core, modelled in Dafny

GeoObCode is a small multi-tenant API. A user creates "agents", each with a specialty. The agent is fed documents and URLs, which a language model condenses into a *knowledge matrix*. People then chat with the agent, and it answers from that matrix. This project models the core of that system and proves properties about it:

- **Governor** (`governor.dfy`): the character budgets, covering `enforce_max_chars` (strip, then cut) and `guard_payload_size` (a ceiling of twice the total budget).
- **Ingestion** (`ingestion.dfy`): `synthesize_matrix`, which works in these steps:
  - fetch at most ten URLs, turning failures into inline markers;
  - build the corpus: the prompt, then `[DOC_TXT]` segments, then `[URL_TXT]` segments, joined by `\n\n---\n\n`;
  - guard the corpus size, truncate it and cut it into chunks;
  - make one map call per kept chunk, then one reduce call.
- **Completion** (`completion.dfy`): the request shape and the completion service. The service is an oracle `Request -> Result<string, string>`. Running a list of calls that stops at the first error is `CallEach`.
- **Store** (`store.dfy`): the JSON store as a class `JsonStore`. It keeps users, agents, conversations, the four id indexes and the per-conversation message logs as fields; its methods replace those fields the way each source method rewrites its file.
- **DocumentLoader** (`document_loader.dfy`):
  - extension detection and the allow-list;
  - the PDF, DOCX and XLSX extractors, over page, paragraph and cell texts given by the parsing libraries, and the exception a library raises on bytes it cannot read;
  - the upload loop, with its byte budget, its truncations and warnings, and the `[FILE:…]` tagging.
- **Chat** (`chat.dfy`): the system prompt, the user payload (matrix, recent history, question), the temperature choice and the single completion request behind `answer`.
- **Strings** (`strings.dfy`): the parts of Python's `str` the core relies on: `strip` (on Python's whitespace set), slicing with `[:n]` and `[-n:]`, `join`, `rsplit(".", 1)[-1]`, ASCII `lower`/`upper` and decimal rendering.
- **Wrappers** (`wrappers.dfy`): `Option`, `Result` and `Outcome`.

The imperative loops of the source are methods with loop invariants: URL resolution, segment tagging, chunk summarising, the upload loop, the XLSX rows loop and the reindexing loops. Each is proved equal to a specification function, and the lemmas are stated about those functions. Things the source gets from outside are parameters:

- the completion service;
- the URL fetcher;
- the password hasher and verifier;
- the document parsers;
- new ids and timestamps.

A few places where the model departs from the prose description, following the code:

- `_chunk_text` strips the truncated corpus before cutting it. So the kept chunks concatenate to `strip(merged[:max_total_chars])[:max_partials*chunk_chars]`, not to a plain prefix of the corpus.
- The prompt is always the first part of the corpus, so it is never empty. Once past the size guard, the "nothing to synthesise" sentinel is reached exactly when `max_partials` is 0, never for an empty set of documents. A zero `max_total_chars` does not lead to the sentinel: the guard runs on the untruncated corpus, so every call is refused with 413.
- The sentinel and every message are kept in the code's Portuguese wording.

## Model

| member | source | states |
|---|---|---|
| Governor.GetBudgets | app/core/governor.py:17-23 | the four budgets are exactly the four configured limits |
| Governor.EnforceMaxChars | app/core/governor.py:26-32 | `None` gives `""`; the result is never longer than the limit; it is a prefix of the stripped text; it is the whole stripped text when that fits, and exactly `limit` characters otherwise |
| Governor.EnforceNonBlank | app/core/governor.py:29-32 | blank text or a zero limit gives `""`; otherwise the result is non-blank and starts with a non-space character |
| Governor.EnforceMayEndInSpace | app/core/governor.py:29-31 | the cut comes after stripping, so a result can end in whitespace (`"a b"` cut to 2 is `"a "`) |
| Governor.GuardPayloadSize | app/core/governor.py:35-40 | the guard fails exactly when the size exceeds twice the total budget |
| Governor.GuardBoundary | app/core/governor.py:36 | exactly twice the budget passes; one more character fails |
| Governor.DefaultCeiling | app/core/config.py:19-22 | with the default configuration the chunk size is positive and the corpus ceiling is 240000 characters, inclusive |
| Completion.SystemUserRequest | app/services/ingestion_service.py:62-68 | every request carries one system message followed by one user message, with the given texts |
| Completion.CallEach | app/services/ingestion_service.py:129 | the requests sent are a prefix of the list; the outcome is Ok exactly when every call succeeds, and then holds every reply in order; otherwise the last request sent is the first failure, its error is the outcome, and every earlier call succeeded |
| Completion.CallOnce | app/services/chat_service.py:47-53 | a single call sends exactly that request; its reply or error is the outcome |
| Completion.CallEachStopsAtFailure | app/services/ingestion_service.py:129 | once a prefix of the calls has failed, no later request is sent |
| Completion.CallEachFailsAt | app/services/ingestion_service.py:129 | the first failing call at position k sends exactly requests 0..k and ends with that call's error |
| Ingestion.BuildMatrixPrompt | app/services/ingestion_service.py:11-27 | stripping removes only the framing newlines, and the prompt starts with a non-space character |
| Ingestion.MapUserPrompt | app/services/ingestion_service.py:48-60 | the map prompt is the label, the specialty, the chunk and the instructions, with the strip removing only the framing |
| Ingestion.ReduceUserPrompt | app/services/ingestion_service.py:71-87 | when the joined partials are not blank, the reduce prompt is the label, the specialty and the instructions followed by the partials joined in order by the separator; the strip removes only the join's trailing whitespace; when the join is blank, the prompt ends at the colon that would introduce the partials |
| Ingestion.MapRequests | app/services/ingestion_service.py:62-68 | one map request per chunk, in chunk order |
| Ingestion.FetchUrlText | app/services/ingestion_service.py:30-36 | a raised error propagates; a textual content type (text/json/xml/html, lowercased) gives the body cut to `max_chars`; any other type gives the non-textual placeholder naming it |
| Ingestion.UrlTexts | app/services/ingestion_service.py:101-106 | only the first 10 URLs are resolved, one text each, at the URL's own position |
| Ingestion.ResolveUrl | app/services/ingestion_service.py:103-106 | a failing fetch becomes the failure marker naming the URL and the error; anything else is the fetched text |
| Ingestion.FetchOrMark | app/services/ingestion_service.py:103-106 | one pass of the fetch loop computes exactly `ResolveUrl` |
| Ingestion.ResolveUrls | app/services/ingestion_service.py:101-106 | the fetch loop computes exactly the URL texts |
| Ingestion.SegmentOfCases | app/services/ingestion_service.py:110-118 | a blank text contributes nothing; any other contributes one segment, the tag followed by the enforced, stripped text |
| Ingestion.SegmentsAppend | app/services/ingestion_service.py:110-118 | segments keep input order: the segments of a concatenation are the segments of each part, in turn |
| Ingestion.TaggedSegments | app/services/ingestion_service.py:110-118 | the tagging loop computes exactly the segments of its texts |
| Ingestion.SegmentFor | app/services/ingestion_service.py:111-113 | one pass of the tagging loop computes that text's segment |
| Ingestion.AssembleCorpus | app/services/ingestion_service.py:108-120 | the two loops followed by the join compute exactly the corpus: prompt, document segments, URL segments |
| Ingestion.CorpusStartsWithPrompt | app/services/ingestion_service.py:108-120 | the corpus starts with the matrix prompt, so it is never empty and never starts with whitespace |
| Ingestion.Chunks | app/services/ingestion_service.py:43 | the chunks concatenate back to the input, none is empty, none is longer than the step, all but the last are exactly the step long, and there are none exactly when the input is empty |
| Ingestion.ChunkText | app/services/ingestion_service.py:39-43 | no chunks exactly when the text is blank; the chunks concatenate to the stripped text, with the same size bounds |
| Ingestion.ChunkCount | app/services/ingestion_service.py:43 | the number of chunks is the ceiling of length over step |
| Ingestion.TakeChunks | app/services/ingestion_service.py:124 | the first k chunks concatenate to the first k·step characters |
| Ingestion.RetainedChunks | app/services/ingestion_service.py:123-124 | at most `max_partials` chunks are kept, each non-empty and at most `chunk_chars` long |
| Ingestion.RetainedPrefix | app/services/ingestion_service.py:123-124 | the kept chunks concatenate to `strip(merged[:max_total_chars])[:max_partials*chunk_chars]` |
| Ingestion.RetainedEmptyIff | app/services/ingestion_service.py:123-127 | for a corpus that starts with the prompt, no chunk survives exactly when `max_total_chars` or `max_partials` is 0 |
| Ingestion.SynthesizeCorpus | app/services/ingestion_service.py:121-130 | the size guard runs on the untruncated corpus: it fails exactly above twice the budget, and then no completion call is made |
| Ingestion.Summarize | app/services/ingestion_service.py:126-130 | no calls exactly when there are no chunks, and then the sentinel; errors are synthesis failures; at most one call more than there are chunks |
| Ingestion.SynthesizeMatrix | app/services/ingestion_service.py:98-130 | the whole imperative pipeline computes exactly the specification function `Synthesize` |
| Ingestion.GuardAndSummarize | app/services/ingestion_service.py:121-130 | the guard, the truncation, the chunking and the summarising compute exactly `SynthesizeCorpus` |
| Ingestion.SummarizeChunks | app/services/ingestion_service.py:126-130 | the map comprehension and the reduce call compute exactly `Summarize` |
| Ingestion.SentinelIff | app/services/ingestion_service.py:121-127 | past the guard, for a corpus led by a non-space character, the sentinel comes back with zero calls exactly when `max_partials` is 0 |
| Ingestion.PipelineSentinelIff | app/services/ingestion_service.py:108-127 | the same for the assembled corpus, whatever documents and URLs were given |
| Ingestion.ZeroBudgetRefused | app/services/ingestion_service.py:108-121 | with `max_total_chars` at 0, every assembled corpus is refused with 413 before any completion call |
| Ingestion.CallSequence | app/services/ingestion_service.py:129-130 | when every map call succeeds, the calls are one map request per chunk in order, then one reduce request joining the partials in the same order |
| Ingestion.MapFailureStops | app/services/ingestion_service.py:129 | a failing map call at chunk k ends the run: requests 0..k were sent, the reduce never runs, and the error is reported as a synthesis failure |
| Ingestion.CallBound | app/services/ingestion_service.py:124-130 | a run never makes more than `max_partials + 1` completion calls |
| Store.FindUser | app/infra/json_store.py:49 | finds the first record with that tenant and email, or reports that none exists |
| Store.UpsertEffect | app/infra/json_store.py:49-63 | an existing login keeps its position, id and creation time, gets the new hash and role, and nothing else changes; otherwise exactly one new record is appended |
| Store.UpsertKeepsLoginsUnique | app/infra/json_store.py:49-63 | upserting never creates a second record for a (tenant, email) login |
| Store.JsonStore.UpsertUser | app/infra/json_store.py:47-65 | the users become the upserted collection, and the returned user is the record the login now finds |
| Store.JsonStore.Authenticate | app/infra/json_store.py:67-74 | a user comes back exactly when the login exists and the password verifies against its hash, and it is that stored record |
| Store.TenantAgents | app/infra/json_store.py:79 | exactly the agents of the tenant |
| Store.OwnedAgents | app/infra/json_store.py:80 | exactly the tenant's agents owned by the user |
| Store.TenantAppend | app/infra/json_store.py:79 | the tenant filter keeps collection order |
| Store.OwnedAppend | app/infra/json_store.py:80 | the owner filter keeps collection order |
| Store.OwnedWithinTenant | app/infra/json_store.py:78-80 | a non-admin's listing is the admin listing of the tenant narrowed to the user's own agents, in the same order |
| Store.JsonStore.ListAgents | app/infra/json_store.py:76-80 | never an agent of another tenant; an admin sees every agent of the tenant; anyone else sees exactly their own |
| Store.JsonStore.CreateAgent | app/infra/json_store.py:82-98 | exactly one agent is appended, with the given fields, an empty matrix and version 0; earlier agents are unchanged and both agent indexes are rebuilt |
| Store.FindAgent | app/infra/json_store.py:102 | finds the first agent with that tenant and id, or reports that none exists |
| Store.JsonStore.GetAgent | app/infra/json_store.py:100-102 | returns an agent exactly when one matches both tenant and id, and it is the first such agent |
| Store.WithMatrix | app/infra/json_store.py:109-111 | sets the matrix and the update time, sets the version to the old one (missing counts as 0) plus 1, and leaves every other field alone |
| Store.JsonStore.UpdateAgentMatrix | app/infra/json_store.py:104-113 | an unknown (tenant, id) gives `AgentNotFound` and leaves the collection unchanged; otherwise only the first matching record is replaced, keeping length and order, and it is returned |
| Store.VersionCountsUpdates | app/infra/json_store.py:110 | after n matrix updates the version has grown by n, and the matrix is the last one given |
| Store.StillFound | app/infra/json_store.py:104-113 | an update keeps the tenant and id of the record it changes, so the next lookup of that agent finds the same record |
| Store.UpdatesAccumulate | app/infra/json_store.py:104-113 | n successive `update_agent_matrix` calls on one agent change only its record, which becomes the n-fold update: version grown by n, last matrix kept |
| Store.ListedAt | app/infra/json_store.py:117-121 | every id listed under a key comes from an entry with that key |
| Store.ListedExactlyOnce | app/infra/json_store.py:117-121 | the ids under a key come from that key's entries, each entry exactly once and in collection order |
| Store.IndexKeys | app/infra/json_store.py:117-121 | the index has a key exactly for the keys that occur in the collection |
| Store.IndexLists | app/infra/json_store.py:117-121 | under each key the index lists the ids of that key's entries, in collection order |
| Store.AgentsByTenant | app/infra/json_store.py:120 | one (tenant, id) pair per agent, in order |
| Store.AgentsByOwner | app/infra/json_store.py:121 | one (owner, id) pair per agent, in order |
| Store.ConversationsByAgent | app/infra/json_store.py:144 | one (agent, id) pair per conversation, in order |
| Store.ConversationsByUser | app/infra/json_store.py:145 | one (user, id) pair per conversation, in order |
| Store.IndexStep | app/infra/json_store.py:120 | `setdefault(key, []).append(id)` extends exactly that key's list by the id |
| Store.JsonStore.ReindexAgents | app/infra/json_store.py:115-123 | the loop rebuilds both agent indexes from the current agents |
| Store.JsonStore.CreateConversation | app/infra/json_store.py:125-137 | exactly one conversation is appended, with the given fields, and both conversation indexes are rebuilt |
| Store.JsonStore.ReindexConversations | app/infra/json_store.py:139-147 | the loop rebuilds both conversation indexes from the current conversations |
| Store.JsonStore.AppendMessage | app/infra/json_store.py:149-154 | one record is added at the end of that conversation's log; other logs and earlier lines are unchanged |
| Store.Records | app/infra/json_store.py:162 | blank lines are skipped; every record read back is one of the log's entries |
| Store.JsonStore.LoadLastMessages | app/infra/json_store.py:156-162 | a missing log gives nothing; a positive limit gives at most that many records, all taken from the log; a limit of 0 reads the whole log |
| Store.AppendThenLoad | app/infra/json_store.py:149-162 | reading right after an append gives the new message last, after the records of the preceding `limit - 1` lines |
| DocumentLoader.GetExt | app/services/document_loader.py:21-24 | a name without a dot gives `""`; any extension has no dot, no upper-case letter and no leading or trailing whitespace |
| DocumentLoader.GetExtOfName | app/services/document_loader.py:21-24 | for any dot-free `ext`, the extension of `base + "." + ext` is `ext` lower-cased and stripped, so `.PDF` and `. txt ` are recognised whatever their case and spacing |
| DocumentLoader.GetExtOfLowerName | app/services/document_loader.py:21-24 | a dot-free, lower-case, trimmed `ext` comes back from `base + "." + ext` unchanged |
| DocumentLoader.NonBlankPagesOrdered | app/services/document_loader.py:38-41 | kept page numbers are in range and strictly increasing |
| DocumentLoader.NonBlankPagesExact | app/services/document_loader.py:38-41 | a page is kept exactly when its text is not blank |
| DocumentLoader.PdfPartsTagged | app/services/document_loader.py:38-41 | one part per kept page, in order, tagged with the 1-based page number followed by the page's stripped text |
| DocumentLoader.ExtractPdf | app/services/document_loader.py:35-42 | the page loop computes the joined, stripped parts |
| DocumentLoader.Kept | app/services/document_loader.py:47 | every kept paragraph is non-empty and trimmed at both ends; with no blank paragraph, every paragraph is kept |
| DocumentLoader.RowLines | app/services/document_loader.py:61-72 | at most one line per row, each non-empty and trimmed at both ends |
| DocumentLoader.DocxTextIsJoin | app/services/document_loader.py:45-48 | the outer strip changes nothing: the text is the kept paragraphs joined by newlines |
| DocumentLoader.SheetLinesShape | app/services/document_loader.py:56-74 | a sheet gives its header first and the empty separator last, the truncation marker just before the separator when it had more than `max_rows` rows, and at most `max_rows + 3` lines |
| DocumentLoader.XlsxCaps | app/services/document_loader.py:53-76 | only the first `max_sheets` sheets, their first `max_rows` rows and the first `max_cols` cells of each row reach the text |
| DocumentLoader.SheetsWithinCaps | app/services/document_loader.py:56-74 | sheets that agree within the caps give the same lines |
| DocumentLoader.RowsWithinCaps | app/services/document_loader.py:61-72 | rows that agree on their first `max_cols` cells give the same lines |
| DocumentLoader.ExtractSheet | app/services/document_loader.py:56-74 | the rows loop, with its counter and early break, computes exactly the sheet's lines |
| DocumentLoader.ExtractXlsx | app/services/document_loader.py:51-76 | the sheets loop computes exactly the workbook text |
| DocumentLoader.ExtractedText | app/services/document_loader.py:79-100 | an error exactly when the extension is not supported or its reader raises: 415 with the detail naming the extension in the first case, the reader's exception in the second; plain-text formats are decoded and stripped |
| DocumentLoader.ReadDocument | app/services/document_loader.py:90-100 | a PDF, DOCX or XLSX file fails exactly when its reader raises, and then with that exception |
| DocumentLoader.ReadWith | app/services/document_loader.py:35-52 | a reader that raises gives its exception, and one that succeeds gives the rendered text |
| DocumentLoader.RejectedBeforeParsing | app/services/document_loader.py:80-85 | a refused extension is refused whatever the bytes and the parsers |
| DocumentLoader.ExtractTextFromBytes | app/services/document_loader.py:79-100 | the dispatch computes exactly `ExtractedText` |
| DocumentLoader.AdmittedShape | app/services/document_loader.py:130-141 | each byte counts toward the total; one warning for oversized bytes and one for overlong text; exactly one new document iff the cut text is non-blank, at most `max_chars_per_doc` characters beyond its tag |
| DocumentLoader.ExtractsIff | app/services/document_loader.py:79-100 | a file's cut bytes yield a text exactly when its extension is supported and its reader does not raise on them |
| DocumentLoader.StepOk | app/services/document_loader.py:119-141 | one file is admitted exactly when the running total stays within budget and its cut bytes yield a text |
| DocumentLoader.IngestOkIff | app/services/document_loader.py:118-143 | for any extractor, the call succeeds exactly when the untruncated sizes add up to at most the byte budget and every file yields a text; the total then counts every byte, with at most one document and two warnings per file |
| DocumentLoader.IngestOkIffParsers | app/services/document_loader.py:79-143 | with the real extractor, the call succeeds exactly when the sizes fit the budget and every file has a supported extension whose reader does not raise on its cut bytes |
| DocumentLoader.BudgetBeforeFormat | app/services/document_loader.py:106-128 | with the default limits, one upload over 20 MiB is refused with 413 whatever its extension or bytes |
| DocumentLoader.OverBudgetRefused | app/services/document_loader.py:122-128 | when every file yields a text, a call over the byte budget fails with 413 |
| DocumentLoader.FirstOverflowRefused | app/services/document_loader.py:119-128 | once the running total over the files read so far plus the next file exceeds the byte budget, the whole call fails with 413, whatever the later files hold |
| DocumentLoader.StopsAfterError | app/services/document_loader.py:119-128 | once a prefix fails, the rest of the files change nothing |
| DocumentLoader.ExtractTextsFromUploads | app/services/document_loader.py:103-143 | the upload loop returns exactly the documents and warnings of `Ingest`, or its error; a missing list is an empty one |
| DocumentLoader.AdmitFile | app/services/document_loader.py:120-141 | one pass of the loop computes exactly one `Step` |
| DocumentLoader.CutBytes | app/services/document_loader.py:130-132 | oversized data is cut to `max_file_bytes`, with exactly one warning |
| DocumentLoader.AddText | app/services/document_loader.py:136-141 | the text is cut to `max_chars_per_doc` with one warning, and a `[FILE:…]` document is added only when it is not blank |
| Chat.SystemLayout | app/services/chat_service.py:10-20 | the system prompt is the template with only its final newline removed |
| Chat.HistoryLine | app/services/chat_service.py:24 | one `ROLE: content` line, as long as the role, two characters and the content |
| Chat.HistoryLines | app/services/chat_service.py:24 | one line per message, in order |
| Chat.HistoryOrder | app/services/chat_service.py:24 | lines are joined by newlines in history order |
| Chat.HistoryStartsWithFirst | app/services/chat_service.py:24 | the history block starts with the first message's line |
| Chat.PayloadLayout | app/services/chat_service.py:25-34 | the payload is the matrix section, then the history section, then the question, with only the question's trailing whitespace removed |
| Chat.PayloadWithoutQuestion | app/services/chat_service.py:25-34 | a blank question leaves the matrix and history sections with nothing after them |
| Chat.ChooseTemperature | app/services/chat_service.py:45 | 0.2 exactly when the agent's type is `"Corporativo"`, 0.4 otherwise |
| Chat.StoredTemperature | app/services/chat_service.py:45 | for a stored agent, 0.2 exactly when it is corporate |
| Chat.RecentHistory | app/services/chat_service.py:40 | a suffix of the history, of length `min(n, len)` when `max_history_msgs` is positive |
| Chat.Answer | app/services/chat_service.py:47-53 | exactly one completion call, whose reply or error is the outcome |
| Chat.AnswerRequestShape | app/services/chat_service.py:42-53 | the request uses the chat model, 1800 tokens and a [system, user] pair, with the system prompt first and the chosen temperature |
| Chat.AnswerQuestion | app/services/chat_service.py:39-43 | the question is the prompt stripped and cut to 8000 characters, after the matrix and recent history; a blank prompt leaves the question empty |

## Left out

- File-system I/O in `json_store.py` (`_ensure_dirs`, `_load`, `_save`, JSON encoding, `.jsonl` paths) is not modelled. Each collection is a field of `JsonStore`, and a whole-file rewrite is a field assignment.
- The lost update between concurrent writers of one file is not modelled, because it is concurrency; access is sequential.
- The network client (`app/services/groq_client.py`) is not part of this model. The completion service is an oracle over requests.
- The `requests.get` transport in `fetch_url_text`, including its timeout, is not modelled. A fetch is an abstract outcome: a response with a content type and a body, or a raised error with its message.
- Password hashing and verification (`app/core/security.py`), JWTs and the clock are not modelled; hashing and verifying are function parameters.
- The pypdf, python-docx and openpyxl parsers and `bytes.decode` (including its replacement fallback) are not modelled. Their results are given as page, paragraph and cell texts through `Parsers`, or as `None` when the library raises on the bytes; which bytes make it raise is the parser's business. An XLSX cell is already its `str()` text.
- A reader's exception is `ParseFailed` with the file's extension. Its message, and the HTTP 500 that the framework makes of it, are not modelled. An exception from an individual page, paragraph or row after the file has opened is not modelled either.
- The asynchronous `await f.read()` is not modelled; each upload arrives with its bytes.
- The HTTP routes, `app/api/deps.py`, `app/main.py`, `app/core/config.py`, `app/domain/schemas.py` and `scripts/create_user.py` are not part of this model. The configuration defaults appear only as `Governor.DefaultSettings`.
- Default arguments are not modelled; every caller passes the value. These are `answer`'s `profile="ADMIN"`, `upsert_user`'s `role="user"`, `synthesize_matrix`'s `temperature=0.2` and `fetch_url_text`'s `timeout=10`. The upload caps of `extract_texts_from_uploads` appear as `DocumentLoader.DefaultLimits`, and `fetch_url_text`'s `max_chars=200000` as `Ingestion.FetchMaxChars`.
- Temperatures are a two-valued enum, not floats.
- UUIDs and `datetime.utcnow()` are parameters (`newId`, `now`).
- `lower()` and `upper()` are modelled on ASCII letters only. Unicode case mapping is not modelled.
- Budgets, limits and sizes are natural numbers. Negative Python integers, which would change the meaning of the slices, are not modelled.
- Ingestion.Synthesize requires `chunk_chars > 0`, because `range(0, n, 0)` raises in the source. That exception path is not modelled.
- The fallback at `app/services/document_loader.py:99-100` is the last branch of `ReadDocument`. It is unreachable from `ExtractedText`, because the allow-list has exactly the six extensions dispatched before it.
- `Store.JsonStore.CreateAgent` takes the agent type as the enum `AgentType`, since the request schema restricts it to `Pessoal` or `Corporativo`. Chat reads it back as the optional string `agent.get("type")`.
- Chat agent fields read with `agent.get(...)` are `Option<string>`. A missing name, specialty or type renders as `None`, as an f-string would; a missing matrix renders as `""`.
- DocumentLoader.SheetLinesShape: states the shape of one sheet's lines (header first, separator last, marker before it, row bound), not the full list of row lines. That list is given exactly by `SheetLines`, and `ExtractSheet` is proved equal to it.
- Store.JsonStore.LoadLastMessages: states membership, the bound and the whole-log case rather than the exact order of the read-back records. Order is given by `Store.AppendThenLoad`, which shows each appended message coming back last.
- Store.JsonStore.LoadLastMessages: the default `limit = 12` is not modelled (the caller passes a limit), and neither is a negative limit.
- Store.Records: a log line is either blank or a decoded record. A line holding malformed JSON, which makes `json.loads` raise, is not modelled.
- Store.JsonStore.AppendMessage: one append is modelled as exactly one log line. The source writes `json.dumps(record, ensure_ascii=False)` (`app/infra/json_store.py:154`), which leaves U+0085, U+2028 and U+2029 in the content unescaped. `splitlines()` (`app/infra/json_store.py:160`) splits on those characters, so such a message becomes several lines on disk. That case is not modelled.
- Store.AppendThenLoad: proved for the one-line-per-append log above. For a content holding U+0085, U+2028 or U+2029, the source's read-back feeds a fragment of the record to `json.loads`, which raises; the model does not capture that failure.
- Store.JsonStore.LoadLastMessages: `limit` counts log lines, and the model takes every append as one line. A message split by `splitlines()` as described above would count more than once against the limit, and would make `json.loads` raise; neither is modelled.
