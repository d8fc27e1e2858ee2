# Medical transcription analysis — the deterministic core in Dafny

The application turns a doctor–patient conversation (an audio upload or typed
text) into a clinical report. It chains Whisper transcription, a HuggingFace
NER pipeline, BART summarisation, a Gemini prompt and a reportlab PDF, and
indexes the transcript in a FAISS knowledge base. Almost all of that is
foreign code. This project models the logic the repository itself writes
around those calls, and proves what that logic promises:

- **Medical entity post-processing** (`medical_ner.dfy`, module `MedicalNer`).
  It keeps raw NER hits whose score reaches the threshold and whose label is
  one of `MISC`, `ORG`, `I-MISC`, `B-MISC`. It removes every `'Ġ'` from the
  token text and drops terms of two characters or fewer. The kept terms are
  grouped by type, duplicates are removed keeping the first occurrence, and
  each group becomes a line `TYPE: t1, t2`. The tagging model is loaded
  lazily by the `MedicalNER` class.
- **Report generation control** (`report_generator.dfy`, module
  `ReportGeneration`).
  - The entity list is rendered as `term (type)` items.
  - The two prompts are filled in.
  - The bounded retry loop around `generate_content` is shared by
    `generate_report` and `explain_medical_terms`.
  - `configure_api` and the constructor's API-key handling are modelled.
  - The line-by-line PDF element list is built, with its paragraph styles.
- **Knowledge-base state machine** (`vector_store.dfy`, module
  `KnowledgeBase`). The embedding model and the index are loaded lazily. The
  index is saved to and loaded from a path, and every failure becomes `false`
  or `[]`. Query results are formatted as `Result {i+1}:` blocks.
- **HTTP layer** (`app.dfy`, module `Api`).
  - `process_full` chooses its input and runs the stages in order.
  - A report id names both the PDF file `temp/report_{id}.pdf` and the URL
    `/download_report/{id}`.
  - `generate_report` and `process_full` add to the `temp/` directory, and
    `download_report` answers 404 for an id whose file is missing.

`strings.dfy` (module `Strings`) models the Python string operations used:
`join`, `split`, `strip` emptiness, `startswith` and `endswith`,
`replace(pat, "")` and `str(n)`. `sequences.dfy` (module `Sequences`) models
order-preserving de-duplication. `results.dfy` (module `Results`) holds the
`Result` and `Option` types; a raised exception is a `Failure` carrying
`str(e)`.

Foreign calls are parameters: total functions whose `None`, `false` or
`Failure` stands for the call raising. These are the NER pipeline loader,
Gemini configuration and `generate_content`, the PDF build, the embedding
model, the text splitter, FAISS `from_texts`, `save_local` and
`similarity_search`, the transcriber, and the summariser. The fresh report id
that `uuid4` would produce is a parameter too.

The source's default arguments (the NER threshold 0.7, three Gemini
attempts, chunk size 200 with overlap 50, `k = 3`, the model names and the
PDF file name) are default parameter values of the corresponding members.

What the code does at the edges, as the model states it:

- **Both inputs given.** `process_full` uses the uploaded file and ignores
  the text field.
- **Neither input given.** The `HTTPException(400)` is raised inside the
  handler's own `try` and caught by its `except Exception`. The client
  therefore receives status 500 with detail
  `Processing error: 400: Either audio file or text must be provided`. This
  relies on Starlette's `str(HTTPException)` being `"{status}: {detail}"`.
- **Stage order.** The stages run one after another: transcription,
  extraction, summarisation, report, PDF. The first stage that raises ends
  the request with a 500 whose detail is `Processing error: ` followed by
  that stage's message. `process_full` never queries the knowledge base; it
  only schedules indexing of the transcript after the response. Only the
  Gemini calls are retried.
- **Report store.** The report store is the `temp/` directory. The
  `generate_report` endpoint returns a download URL even when writing the
  PDF failed, so that URL then answers 404.

## Model

| member | source | states |
|---|---|---|
| Strings.RemoveCharacter | src/medical_transcription/ner/medical_ner.py:88 | `word.replace('Ġ', '')` leaves no `'Ġ'`, keeps every other character with its multiplicity, and changes nothing exactly when there was no `'Ġ'` |
| Strings.RemoveHeadingMarks | src/medical_transcription/report_generation/report_generator.py:204 | `line.replace("###", "")` leaves no `"###"` anywhere in the result, and a leading run of n `#` shrinks to n mod 3 |
| Strings.RemoveHeadingFree | src/medical_transcription/report_generation/report_generator.py:204 | `line.replace("###", "")` leaves no `"###"` anywhere in the result |
| Strings.RemoveHeadingLeading | src/medical_transcription/report_generation/report_generator.py:204 | `line.replace("###", "")` shrinks a leading run of n `#` to n mod 3 |
| Strings.JoinSplit | src/medical_transcription/report_generation/report_generator.py:200 | joining the parts of `text.split("\n")` with `"\n"` gives back the text, so every line of the report is visited |
| Strings.SplitPartsFree | src/medical_transcription/report_generation/report_generator.py:200 | no line produced by `split("\n")` contains a newline |
| Strings.NatToStringDigits | src/medical_transcription/knowledge_base/vector_store.py:184 | `str(n)` is a non-empty string of decimal digits with no leading zero, one digit long exactly when n < 10 |
| Strings.NatToStringRoundTrip | src/medical_transcription/knowledge_base/vector_store.py:184 | `str(i+1)` is a non-empty digit string with no leading zero that reads back as `i+1` |
| Strings.NatToStringInjective | src/medical_transcription/knowledge_base/vector_store.py:184 | different result numbers print differently |
| Sequences.DistinctMembers | src/medical_transcription/ner/medical_ner.py:141-145 | the membership-checking loop neither loses nor adds a term |
| Sequences.DistinctNoDuplicates | src/medical_transcription/ner/medical_ner.py:141-145 | after the loop no term occurs twice |
| Sequences.DistinctFirstSeenOrder | src/medical_transcription/ner/medical_ner.py:141-145 | the kept terms come in the order of their first occurrence |
| MedicalNer.FilterMedicalEntities | src/medical_transcription/ner/medical_ner.py:64-99 | the loop returns exactly the kept hits converted in input order (`Filtered`), and never more entities than it was given |
| MedicalNer.FilteredSound | src/medical_transcription/ner/medical_ner.py:79-97 | every output entity has score at least the threshold, one of the four medical labels as its type, and a term longer than 2 characters with no `'Ġ'` in it |
| MedicalNer.FilteredIsOrderedSelection | src/medical_transcription/ner/medical_ner.py:75-99 | the output is a selection of input positions, in increasing order, containing every position that passes the filter; each output is that hit with the cleaned word as term, its label as type, and score, start and end copied |
| MedicalNer.KeptIndicesSound | src/medical_transcription/ner/medical_ner.py:79-97 | the k-th output entity is the conversion of the hit at the k-th selected position, which is in range and passes the filter |
| MedicalNer.KeptIndicesIncreasing | src/medical_transcription/ner/medical_ner.py:75-99 | the selected positions are strictly increasing, so the output keeps input order and never repeats a hit |
| MedicalNer.KeptIndicesComplete | src/medical_transcription/ner/medical_ner.py:79-97 | every input position whose hit passes the filter is selected |
| MedicalNer.MedicalNER.constructor | src/medical_transcription/ner/medical_ner.py:17-26 | the model name is stored and no model is loaded |
| MedicalNer.MedicalNER.LoadModel | src/medical_transcription/ner/medical_ner.py:28-39 | a loaded model is kept as is; otherwise the loader's model is stored, and a failed load is reported and leaves none |
| MedicalNer.MedicalNER.ExtractEntities | src/medical_transcription/ner/medical_ner.py:41-62 | succeeds exactly when a model is loaded after the lazy load, with the model's hits for the text |
| MedicalNer.MedicalNER.ExtractMedicalEntities | src/medical_transcription/ner/medical_ner.py:101-115 | the result is the filter applied to the extracted hits with the given threshold; extraction failure propagates |
| MedicalNer.GroupByType | src/medical_transcription/ner/medical_ner.py:130-136 | the dict's keys are the distinct types in first-seen order, and each key maps to the terms of that type in input order |
| MedicalNer.UniqueTerms | src/medical_transcription/ner/medical_ner.py:141-145 | the de-duplication loop computes `Distinct(terms)` |
| MedicalNer.FormatEntitiesForReport | src/medical_transcription/ner/medical_ner.py:117-149 | an empty list gives "No significant medical entities detected."; otherwise the text is the group lines joined by `"\n"` (`EntitiesReport`) |
| MedicalNer.TermsOfTypeMembers | src/medical_transcription/ner/medical_ner.py:132-136 | a type's group holds exactly the terms of the entities of that type |
| MedicalNer.EntitiesReportComplete | src/medical_transcription/ner/medical_ner.py:130-147 | every input entity's type has a line and its term is listed on that line |
| MedicalNer.GroupLineTermsSound | src/medical_transcription/ner/medical_ner.py:140-147 | every term on a type's line belongs to an entity of that type, and no term is listed twice |
| MedicalNer.GroupTypesFirstSeen | src/medical_transcription/ner/medical_ner.py:131-140 | the lines are for distinct types, exactly the types present, in the order each type is first seen |
| MedicalNer.EntitiesReportLayout | src/medical_transcription/ner/medical_ner.py:147-149 | the k-th line `TYPE: terms` sits at its offset, followed by `"\n"` unless it is the last, which ends the text |
| ReportGeneration.EntitiesTextLayout | src/medical_transcription/report_generation/report_generator.py:77-81 | each list entity appears as `term (type)` in input order, followed by `", "` unless it is the last, which ends the text |
| ReportGeneration.Interpolate2 | src/medical_transcription/report_generation/report_generator.py:83-118 | the report prompt f-string holds the entity text and the summary verbatim, each at its place between the fixed parts, and its length is the sum of the parts' lengths |
| ReportGeneration.Interpolate1 | src/medical_transcription/report_generation/report_generator.py:149-162 | the explanation prompt f-string holds the text to explain verbatim right after the fixed opening, and its length is the sum of the parts' lengths |
| ReportGeneration.RetryOutcomeDeterministic | src/medical_transcription/report_generation/report_generator.py:120-135 | the retry outcome (answer and number of calls) is determined by the model state, prompt, attempt count and generator |
| ReportGeneration.ReportGenerator.constructor | src/medical_transcription/report_generation/report_generator.py:27-43 | a model is configured exactly when a non-empty API key is present and configuration succeeds |
| ReportGeneration.ReportGenerator.ConfigureApi | src/medical_transcription/report_generation/report_generator.py:45-62 | returns true exactly when configuration succeeded, which is exactly when the model was set; on failure the model is unchanged |
| ReportGeneration.ReportGenerator.GenerateWithRetries | src/medical_transcription/report_generation/report_generator.py:120-135 | no attempts: the unavailable message and no call; attempts but no model: the not-initialised message and no call; otherwise at most `retries` calls, returning the first successful call's text, or the unavailable message after `retries` failed calls |
| ReportGeneration.ReportGenerator.GenerateReport | src/medical_transcription/report_generation/report_generator.py:64-135 | the retry outcome for the report prompt built from the rendered entities and the summary |
| ReportGeneration.ReportGenerator.ExplainMedicalTerms | src/medical_transcription/report_generation/report_generator.py:137-179 | the same retry outcome for the explanation prompt |
| ReportGeneration.LineParagraphStyle | src/medical_transcription/report_generation/report_generator.py:203-208 | the style is decided on the raw line: Heading1 exactly when it starts with `"###"`, with every `"###"` removed; otherwise Heading2 exactly when it starts and ends with `"**"`; else Normal; only Heading1 changes the text |
| ReportGeneration.LineElementsLayout | src/medical_transcription/report_generation/report_generator.py:200-210 | the lines give two elements per non-blank line: its paragraph, then a 1×6 spacer |
| ReportGeneration.NonBlankLinesSpec | src/medical_transcription/report_generation/report_generator.py:200-201 | the lines that get elements are exactly those whose `strip()` is non-empty, each once, in line order: the k-th is the line at the k-th non-blank position, the positions increase, and every non-blank position is among them |
| ReportGeneration.NonBlankIndicesSound | src/medical_transcription/report_generation/report_generator.py:200-201 | the k-th line that gets elements is the line at the k-th selected position, which is in range and not blank |
| ReportGeneration.NonBlankIndicesIncreasing | src/medical_transcription/report_generation/report_generator.py:200-201 | the selected positions strictly increase, so the lines keep their order and none is used twice |
| ReportGeneration.NonBlankIndicesComplete | src/medical_transcription/report_generation/report_generator.py:200-201 | every line whose `strip()` is non-empty is selected |
| ReportGeneration.PdfElementsLayout | src/medical_transcription/report_generation/report_generator.py:195-210 | the element list is the title paragraph and a 1×12 spacer, then each non-blank line's paragraph and spacer in line order, and nothing else |
| ReportGeneration.BuildPdfElements | src/medical_transcription/report_generation/report_generator.py:195-210 | the append loop builds `PdfElements(report_text)` |
| ReportGeneration.ReportGenerator.SaveReportAsPdf | src/medical_transcription/report_generation/report_generator.py:181-217 | never raises: true exactly when building that element list into the file succeeded |
| KnowledgeBase.MedicalKnowledgeBase.constructor | src/medical_transcription/knowledge_base/vector_store.py:19-30 | nothing is loaded and the index path is `faiss_index` |
| KnowledgeBase.MedicalKnowledgeBase.LoadEmbeddings | src/medical_transcription/knowledge_base/vector_store.py:32-43 | loads only when nothing is loaded, so after a success further calls change nothing |
| KnowledgeBase.MedicalKnowledgeBase.CreateIndex | src/medical_transcription/knowledge_base/vector_store.py:45-82 | true exactly when embeddings, splitting and index building all succeed; the save result is ignored, but the index is written to `index_path` when saving works; every failure leaves the index and disk unchanged |
| KnowledgeBase.MedicalKnowledgeBase.SaveIndex | src/medical_transcription/knowledge_base/vector_store.py:84-106 | no index: false and nothing written; otherwise writes to `path`, or `index_path` when `path` is missing or empty, and reports whether that worked |
| KnowledgeBase.MedicalKnowledgeBase.LoadIndex | src/medical_transcription/knowledge_base/vector_store.py:108-140 | a missing path gives false with state unchanged; otherwise the index is set, and true returned, exactly when embeddings load, deserialisation is allowed and the stored index loads |
| KnowledgeBase.MedicalKnowledgeBase.Query | src/medical_transcription/knowledge_base/vector_store.py:142-167 | with no index it loads from `index_path`: the embedding model is loaded only when that path exists, and on failure it returns `[]` with the index still absent; a raising search gives `[]`; otherwise the search's documents |
| KnowledgeBase.FormatQueryResults | src/medical_transcription/knowledge_base/vector_store.py:169-186 | an empty list gives "No relevant information found in the knowledge base."; any other list gives text that opens with `Result 1:\n`, the first document's content and a newline |
| KnowledgeBase.FormatQueryResultsLayout | src/medical_transcription/knowledge_base/vector_store.py:182-186 | the i-th document's block sits at its offset in input order, followed by `"\n"` unless it is the last, which ends the text |
| Api.ReportFilenameInjective | src/medical_transcription/api/app.py:172-174 | the filename `download_report` rebuilds from an id is the one written for that id and no other |
| Api.ReportUrlRoundTrip | src/medical_transcription/api/app.py:161-168 | the returned URL routes back to the same id, and the download route accepts exactly such URLs |
| Api.ProcessPipeline | src/medical_transcription/api/app.py:183-238 | stages run in a prefix of the fixed order; success exactly when all of them ran; with no input, no stage runs and the answer is the 500 `Processing error: 400: ...`; when transcription, extraction, summarisation or report generation raises (every earlier one having succeeded), the trace ends with that stage and the answer is the 500 `Processing error: ` followed by its message, with nothing saved or scheduled; on success the response echoes the transcription (the file's transcript, else the non-empty text), the entities and summary of that transcription, the report built from exactly those, and the id's URL, and the transcription is what gets indexed |
| Api.FileOverridesText | src/medical_transcription/api/app.py:193-210 | with a file uploaded, the text field does not affect the outcome |
| Api.ProcessSucceedsIff | src/medical_transcription/api/app.py:190-238 | the request succeeds exactly when there is an input and transcription, extraction, summarisation and report generation all succeed, whatever the PDF write does |
| Api.DownloadAfterSave | src/medical_transcription/api/app.py:167-181 | writing a report's PDF makes its id downloadable and changes no other id's answer; after a failed write an unknown id still gets 404 |
| Api.ReportDirectory.constructor | src/medical_transcription/api/app.py:40-41 | the directory starts with the given files |
| Api.ReportDirectory.GenerateReport | src/medical_transcription/api/app.py:144-165 | a raising generator gives 500 `Report generation error: ...` and writes nothing; otherwise the report and its URL come back, and the file is added exactly when the PDF was written |
| Api.ReportDirectory.ProcessFull | src/medical_transcription/api/app.py:183-238 | answers as the pipeline does, adds the report file exactly when it was written, and hands the transcription to background indexing |
| Api.ReportDirectory.DownloadReport | src/medical_transcription/api/app.py:167-181 | 404 "Report not found" exactly when the id's file is absent; otherwise that file, offered as `clinical_report.pdf` |

## Left out

- Transcription (`whisper_transcriber.py`) and summarisation (`text_summarizer.py`) are not part of this model. They are the abstract `transcribe` and `summarize` stages.
- The NER network, Gemini, the embedding model, the text splitter, FAISS building, search and (de)serialisation, and reportlab rendering are foreign calls given as parameters. No ranking, tie-breaking or scoring is modelled, because none is visible in the code.
- The `time.sleep(delay)` after each failed Gemini attempt is not modelled, and neither is the `delay` argument. For `delay >= 0` the outcome does not depend on them; a negative `delay` makes `time.sleep` raise `ValueError` out of `generate_report` or `explain_medical_terms` after the first failed call, which the model does not capture.
- FastAPI routing is modelled only for the one-segment `{report_id}` match of the download route (`RouteReportId`). Request parsing, temp-file writes for uploads and their clean-up are not modelled. `uuid4` is modelled as a fresh id parameter. `BackgroundTasks` is modelled only as the text handed to the indexing task; the task is not run.
- The `/`, `/transcribe`, `/extract_entities`, `/summarize`, `/query_knowledge_base` and `/explain_medical_terms` endpoints are left out:
  - `/` returns a fixed welcome message and calls nothing.
  - `/transcribe` writes the upload to a temporary file, reads the clock before and after calling the transcriber, and schedules the file's removal; the transcriber is not part of this model.
  - `/extract_entities` and `/summarize` each wrap one call in a 500 handler; the NER call is modelled, the summariser is not.
  - `/query_knowledge_base` wraps `kb.query` followed by `kb.format_query_results` in a 500 handler; both calls are modelled.
  - `/explain_medical_terms` wraps `explain_medical_terms` in a 500 handler; the call is modelled.
- Concurrency is not modelled. `kb.create_index` runs as a background task (app.py:227) in a worker thread, alongside `kb.query` and other requests' indexing, so the check-then-set steps of `load_embeddings` and `query` (vector_store.py:36, 153) can interleave. The model treats every knowledge-base call as atomic.
- The float `duration_seconds` of `/transcribe` is not modelled.
- MedicalNer.MedicalNER.ExtractEntities: the tagging call itself is taken never to raise; only a failed load is an error, and its message is a fixed placeholder rather than the loader's `str(e)`.
- MedicalNer.FilterMedicalEntities: raw hits are records, so a hit missing `score`, `entity`, `word`, `start` or `end` (a `KeyError` in the source) cannot occur.
- ReportGeneration.ReportGenerator.GenerateReport: a non-list `entities` is modelled by its `str()` text only. An entity dict missing `term` or `type` (a `KeyError` before the loop) is not modelled.
- ReportGeneration.ReportGenerator.SaveReportAsPdf: whether a failed build leaves a partial file behind is not modelled; the `temp/` directory gains the file only when the build succeeded.
- KnowledgeBase.MedicalKnowledgeBase.SaveIndex: a raising `save_local` is assumed to write nothing, so the path stays as it was. A save that raises part-way, after creating the folder, could leave the path existing, and a later `load_index` would then load the embedding model before failing; the model does not capture that. The same assumption holds for the save inside `CreateIndex`.
- KnowledgeBase.MedicalKnowledgeBase.LoadIndex: the disk is a map from path to the index a load would give. What `save_local` writes is that same index, so a saved index loads back as itself; file formats are not modelled.
- Api.ProcessPipeline: the stage results are opaque. Entities are the NER model's records, not JSON dicts.
