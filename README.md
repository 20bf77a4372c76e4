# Agentic RAG equity report, modelled in Dafny

This project models the deterministic core of a multi-agent report generator for listed companies.

The orchestrator, `MultiAgenticRAG`, owns five report-part agents. They share one language model, one structured-data agent, one unstructured-data agent and one company name. Each part agent walks a fixed, ordered table of fields and search queries. For each field it does four things:
- it searches the indexed filings and joins the chunks it finds with single spaces;
- for Parts I to III, it looks up the company's rows in the structured table;
- it fills the part's prompt template and asks the model once;
- it stores the stripped reply under the field's name.

`generate_report` runs the five parts in order, stores each part's dictionary under "Part I" to "Part V", and calls the progress callback after each part is stored.

Next to the report loop, the project models these pieces:
- the direct 10-K item aggregation of `EdgarDirectManager`;
- the document store of `core/data_management.py`: clearing it, listing it with 200-character snippets, and adding files split into chunks;
- the case-insensitive Name/Symbol row filter of the structured-data agent;
- the two string transforms of the plotting tool in `app.py`: extracting the first fenced Python block, and rewriting it for Streamlit.

The language model, the similarity search, the text splitter, the `edgar` fetch, the DataFrame's `to_json` and `uuid4` are parameters of the model. They are plain functions, or functions that may fail.

Files:
- `wrappers.dfy`: Option and Result.
- `text.dfy`: Python's `strip`, `join`, ASCII `lower`/`upper`, substring and subsequence.
- `ordered_dict.dfy`: Python's insertion-ordered `dict` with string keys.
- `structured_data.dfy`: the structured-data agent.
- `services.dfy`: the Groq model and the unstructured-data agent, as oracles with call logs.
- `field_loop.dfy`: the loop every part agent runs, as a specification function `Run` plus the imperative `RunFields`.
- `report_part1.dfy` to `report_part5.dfy`: each part's field table, prompt template and agent class.
- `multi_agentic_rag.dfy`: the orchestrator and its report loop.
- `edgar_direct.dfy`: `EdgarDirectManager`.
- `data_management.dfy`: the Chroma store.
- `plot_code.dfy`: `extract_python_code` and the plot-code rewrite.

## Model

| member | source | states |
|---|---|---|
| Text.Strip | agents/report_part1_agent.py:68 | `str.strip()`: the result is a slice of the input, everything cut away is whitespace, and the result neither starts nor ends with whitespace |
| Text.StripIdempotent | agents/report_part1_agent.py:68 | stripping an already stripped reply changes nothing |
| Text.Join | agents/report_part1_agent.py:52 | `sep.join(parts)` of one piece is that piece, and a join starts with its first piece |
| Text.JoinSnoc | core/edgar_direct_manager.py:56 | one more piece adds the separator and that piece at the end |
| Text.JoinAppend | core/edgar_direct_manager.py:56 | joining two non-empty lists is joining each and putting one separator between them |
| Text.JoinLength | core/edgar_direct_manager.py:56 | a join is as long as its pieces plus one separator between each two |
| Text.Lower | agents/report_part3_agent.py:58 | `section.lower()`: same length, each ASCII letter lowered, every other character kept |
| Text.Upper | core/edgar_direct_manager.py:19 | `ticker_symbol.upper()`: same length, each ASCII letter raised |
| Text.UpperNormal | core/edgar_direct_manager.py:19 | an upper-cased ticker has no lower-case ASCII letter, and upper-casing it again changes nothing |
| OrderedDict.Keys | agents/report_part1_agent.py:69 | the keys of a dictionary, in insertion order |
| OrderedDict.Put | agents/report_part1_agent.py:69 | `d[k] = v`: a new key is appended after the existing ones, an existing key keeps its place, `k` then maps to `v`, and every other key keeps its value |
| OrderedDict.GetAt | core/multi_agentic_rag.py:101 | in a dictionary without repeated keys, the key at position `i` maps to the value at position `i` |
| StructuredData.FilterRows | agents/structured_data_agent.py:29-32 | the selected rows are a subsequence of the table in table order, every selected row matches, and every matching row is kept as often as it occurs |
| StructuredData.EmptyQueryMatches | agents/structured_data_agent.py:30-31 | the empty query matches exactly the rows with a Name or a Symbol; a missing cell never matches |
| StructuredData.FilterIdempotent | agents/structured_data_agent.py:29-32 | filtering the selection again with the same query changes nothing |
| StructuredData.QueryCaseIgnored | agents/structured_data_agent.py:30-31 | queries that differ only in ASCII case select the same rows |
| StructuredData.StructuredDataAgent.constructor | agents/structured_data_agent.py:7-17 | the agent keeps the table it is given and has answered no query yet |
| StructuredData.StructuredDataAgent.GenerateResponse | agents/structured_data_agent.py:35-46 | `generate_response(q)` returns exactly `retrieve_relevant_data(q)`, leaves the table unchanged and logs one query |
| Services.GroqLlm.Call | core/groq_llm.py:28-41 | one call to the model, whose reply is the oracle's answer to the prompt; the prompt is appended to the call log |
| Services.UnstructuredDataAgent.GenerateResponse | agents/unstructured_data_agent.py:20-32 | one similarity search: the result, or the error it raises, is the oracle's, and the query is appended to the call log |
| FieldLoop.RunTrace | agents/report_part1_agent.py:46-69 | every part run searches the table's queries in table order and stops at the first search that raises, whose error becomes the part's error; each successful search is followed by exactly one prompt built from its field, and by one structured lookup of the company name when the part uses structured data |
| FieldLoop.RunSucceeds | agents/report_part1_agent.py:46-52 | a part succeeds exactly when every one of its searches succeeds |
| FieldLoop.RunResult | agents/report_part1_agent.py:43-74 | with distinct field names, a successful part holds one entry per field, in table order, each the stripped reply to that field's prompt |
| FieldLoop.RunKeys | agents/report_part1_agent.py:46-69 | the keys of a successful part are its field names in table order |
| FieldLoop.FailureAbsorbs | agents/report_part1_agent.py:46-51 | once a search has raised, the remaining fields change nothing |
| FieldLoop.RunFields | agents/report_part1_agent.py:43-74 | the loop returns the specification's result and appends exactly the specification's queries, lookups and prompts to the service logs |
| ReportPart1.TasksFields | agents/report_part1_agent.py:31-40 | Part I's table holds Ticker, Name, Country, Sector, Description, CEO, Headquarters and Employees, in that order |
| ReportPart1.NamesDistinct | agents/report_part1_agent.py:31-40 | no field name repeats in Part I's table |
| ReportPart1.PromptLayout | agents/report_part1_agent.py:59-66 | the shared template with Part I's pieces gives the prompt line by line: backstory, Goal line, structured section, unstructured section, request line, Not Available line |
| ReportPart1.PartKeys | agents/report_part1_agent.py:31-69 | a successful Part I has exactly the eight field names as keys, in table order |
| ReportPart1.PartPrompts | agents/report_part1_agent.py:51-66 | the `k`-th prompt is Part I's text for the `k`-th field, with the company's rows as JSON and the chunks joined with single spaces |
| ReportPart1.ReportPart1Agent.constructor | agents/report_part1_agent.py:7-24 | the agent keeps the model, both data agents and the company name, and builds its table from the company name |
| ReportPart1.ReportPart1Agent.GenerateResponse | agents/report_part1_agent.py:26-74 | the result and the calls made are those of the part's run over its table |
| ReportPart2.TasksFields | agents/report_part2_agent.py:31-38 | Part II's table holds Revenue, Net Income, Cash, Debt, Equity and Operating Cash Flow, in that order |
| ReportPart2.NamesDistinct | agents/report_part2_agent.py:31-38 | no field name repeats in Part II's table |
| ReportPart2.PromptLayout | agents/report_part2_agent.py:56-63 | Part II's prompt line by line, with the request for units "(e.g., USD)" and the Not Available line |
| ReportPart2.PartKeys | agents/report_part2_agent.py:31-66 | a successful Part II has exactly its six field names as keys, in table order |
| ReportPart2.PartPrompts | agents/report_part2_agent.py:48-63 | the `k`-th prompt is Part II's text for the `k`-th field |
| ReportPart2.ReportPart2Agent.constructor | agents/report_part2_agent.py:7-24 | the agent keeps its collaborators and builds its table from the company name |
| ReportPart2.ReportPart2Agent.GenerateResponse | agents/report_part2_agent.py:26-71 | the result and the calls made are those of the part's run over its table |
| ReportPart3.TasksFields | agents/report_part3_agent.py:31-35 | Part III's table holds Performance Summary, Performance Drivers and Outlook, in that order |
| ReportPart3.OutlookQueryFixed | agents/report_part3_agent.py:34 | the Outlook query names no company: it is the same for every company |
| ReportPart3.NamesDistinct | agents/report_part3_agent.py:31-35 | no section name repeats in Part III's table |
| ReportPart3.PromptLayout | agents/report_part3_agent.py:53-60 | Part III's prompt line by line: "Goal: Provide the {section} for {company}.", the structured section, and the request line with the lower-cased section name |
| ReportPart3.PartKeys | agents/report_part3_agent.py:31-63 | a successful Part III has exactly its three section names as keys, in table order |
| ReportPart3.PartPrompts | agents/report_part3_agent.py:45-60 | the `k`-th prompt is Part III's text for the `k`-th section |
| ReportPart3.ReportPart3Agent.constructor | agents/report_part3_agent.py:7-24 | the agent keeps its collaborators and builds its table from the company name |
| ReportPart3.ReportPart3Agent.GenerateResponse | agents/report_part3_agent.py:26-68 | the result and the calls made are those of the part's run over its table |
| ReportPart4.TasksFields | agents/report_part4_agent.py:31-35 | Part IV's table holds Market Position, Key Competitors and Competitive Advantages, in that order |
| ReportPart4.NamesDistinct | agents/report_part4_agent.py:31-35 | no section name repeats in Part IV's table |
| ReportPart4.PromptLayout | agents/report_part4_agent.py:51-57 | Part IV's prompt line by line, with no structured section and the lower-cased section name in the request line |
| ReportPart4.PartKeys | agents/report_part4_agent.py:31-60 | a successful Part IV has exactly its three section names as keys, in table order |
| ReportPart4.PartPrompts | agents/report_part4_agent.py:45-57 | Part IV never queries the structured agent, and the `k`-th prompt is its text for the `k`-th section |
| ReportPart4.ReportPart4Agent.constructor | agents/report_part4_agent.py:7-24 | the agent keeps its collaborators and builds its table from the company name |
| ReportPart4.ReportPart4Agent.GenerateResponse | agents/report_part4_agent.py:26-65 | the result and the calls made are those of the part's run; the structured agent is not touched |
| ReportPart5.TasksFields | agents/report_part5_agent.py:31-36 | Part V's table holds Regulatory Risks, Market Risks, Operational Challenges and Financial Risks, in that order |
| ReportPart5.NamesDistinct | agents/report_part5_agent.py:31-36 | no section name repeats in Part V's table |
| ReportPart5.PromptLayout | agents/report_part5_agent.py:50-56 | Part V's prompt line by line: "Goal: Provide insights on {section} for {company}." and no structured section |
| ReportPart5.PartKeys | agents/report_part5_agent.py:31-59 | a successful Part V has exactly its four section names as keys, in table order |
| ReportPart5.PartPrompts | agents/report_part5_agent.py:46-56 | Part V never queries the structured agent, and the `k`-th prompt is its text for the `k`-th section |
| ReportPart5.ReportPart5Agent.constructor | agents/report_part5_agent.py:7-24 | the agent keeps its collaborators and builds its table from the company name |
| ReportPart5.ReportPart5Agent.GenerateResponse | agents/report_part5_agent.py:26-64 | the result and the calls made are those of the part's run; the structured agent is not touched |
| MultiAgenticRag.Stop | core/multi_agentic_rag.py:97-100 | the first part that raises: every earlier part succeeded, and this one failed unless all succeeded |
| MultiAgenticRag.OrchestrateStop | core/multi_agentic_rag.py:97-110 | the report succeeds exactly when no part raises; otherwise the first error propagates, and only the parts up to and including the failing one were called, in list order; the callback ran once for each part stored before it |
| MultiAgenticRag.OrchestrateOutcome | core/multi_agentic_rag.py:97-110 | the loop ends in success exactly when no part raised, with the first raised error otherwise, and the callback ran once per part stored |
| MultiAgenticRag.OrchestrateCalls | core/multi_agentic_rag.py:97-110 | the calls made are those of the parts up to the first that raised, or of all parts when none did |
| MultiAgenticRag.OrchestrateCallsBeforeStop | core/multi_agentic_rag.py:97-101 | when every part but the last succeeds, every part is started, one after the other |
| MultiAgenticRag.OrchestrateAbsorbs | core/multi_agentic_rag.py:97-101 | after a part raises, no later part changes the outcome |
| MultiAgenticRag.OrchestrateReport | core/multi_agentic_rag.py:84-103 | with distinct part names, a successful report holds one entry per part, in list order, each exactly the dictionary the part returned; the callback saw 1, 2, ... parts stored |
| MultiAgenticRag.FiveParts | core/multi_agentic_rag.py:87-103 | a successful report's keys are Part I to Part V, in that order, and the callback ran five times, once after each part was stored |
| MultiAgenticRag.ProgressCallback.Call | core/multi_agentic_rag.py:102-103 | a callback call records how many parts were stored when it ran |
| MultiAgenticRag.MultiAgenticRAG.constructor | core/multi_agentic_rag.py:16-71 | fresh structured and unstructured agents over the given table and search, and five part agents sharing the model, both data agents and the company name |
| MultiAgenticRag.MultiAgenticRAG.GenerateReport | core/multi_agentic_rag.py:74-110 | the loop returns the specification's report or error, and appends to the service and callback logs exactly what the parts and the callback calls of the specification make |
| MultiAgenticRag.MultiAgenticRAG.GeneratePart | core/multi_agentic_rag.py:100 | the `i`-th part's `generate_response`: its result and calls are those of that part's run |
| EdgarDirect.EdgarDirectManager.constructor | core/edgar_direct_manager.py:15-21 | the stored ticker is the upper-cased input; the form type is kept, "10-K" when none is given; the fetch is kept |
| EdgarDirect.ItemOrNotAvailable | core/edgar_direct_manager.py:51-54 | a present label gives the filing's text, a missing one exactly "Not Available" |
| EdgarDirect.EdgarDirectManager.GetItemText | core/edgar_direct_manager.py:32-41 | a failed fetch propagates its error; otherwise the item's text, or "Not Available" when the label is missing |
| EdgarDirect.ItemTexts | core/edgar_direct_manager.py:49-55 | one text per label, position by position, each the label's text or "Not Available" |
| EdgarDirect.EdgarDirectManager.GetItemsConcat | core/edgar_direct_manager.py:43-56 | a failed fetch propagates; otherwise the "\n\n"-join of the per-label texts in label order, "" for no labels, and for one label the same as `get_item_text` |
| EdgarDirect.ItemsConcatAppend | core/edgar_direct_manager.py:49-56 | two batches of labels joined with "\n\n" give the same text as one batch |
| EdgarDirect.ItemsConcatLength | core/edgar_direct_manager.py:56 | the joined text is as long as the item texts plus two characters between each two |
| EdgarDirect.AllMissing | core/edgar_direct_manager.py:50-56 | when no label is present, the per-label texts are exactly one "Not Available" per label, and the result is their "\n\n"-join: a missing label never ends the loop |
| DataManagement.Snippet | core/data_management.py:45 | a text of at most 200 characters is kept whole; a longer one gives its first 200 characters and "...", 203 in all |
| DataManagement.SnippetIdempotent | core/data_management.py:45 | the snippet of a snippet is the snippet |
| DataManagement.DocInfos | core/data_management.py:42-50 | one record per stored chunk, in store order, each taking its id, metadata and snippet from the same position |
| DataManagement.DocInfosAppend | core/data_management.py:42-50 | chunks stored after others are listed after them |
| DataManagement.Basename | core/data_management.py:74 | `os.path.basename`: the longest suffix of the path without a slash |
| DataManagement.FileChunks | core/data_management.py:72-79 | a missing path gives no chunk; an existing file gives one chunk per splitter piece, in splitter order, each tagged with the file's base name |
| DataManagement.AllChunksSnoc | core/data_management.py:68-79 | one more path adds that file's chunks at the end |
| DataManagement.AllChunksAppend | core/data_management.py:68-79 | the chunks of two path lists are those of the first followed by those of the second |
| DataManagement.MissingFileSkipped | core/data_management.py:69-71 | a path that is not an existing file contributes nothing wherever it appears |
| DataManagement.ChunkSources | core/data_management.py:68-79 | every chunk is a splitter piece of an existing file in the list and carries that file's base name |
| DataManagement.Texts | core/data_management.py:81 | the texts list is parallel to the chunk list |
| DataManagement.Metadatas | core/data_management.py:82 | the metadata list is parallel to the chunk list, each `{"source": basename}` |
| DataManagement.Ids | core/data_management.py:83 | one id per chunk, in chunk order |
| DataManagement.ChromaStore.ClearDatabase | core/data_management.py:19-27 | afterwards the directory is gone and holds nothing; when it was already gone, nothing changes |
| DataManagement.ChromaStore.ListChromaDocuments | core/data_management.py:29-51 | nothing when the directory is missing, otherwise exactly the records of `DocInfos` |
| DataManagement.ChromaStore.AddCustomDocuments | core/data_management.py:53-86 | the directory exists afterwards, and the texts, metadata and ids of the chunks of the existing files are appended in file order, then splitter order |
| PlotCode.FirstFence | app.py:61 | the first closing fence at or after a position, or none |
| PlotCode.FirstMatch | app.py:61-62 | the first position where the pattern matches, or none |
| PlotCode.ExtractPythonCode | app.py:59-66 | no result exactly when the pattern matches nowhere; a result has no whitespace at either end and contains no fence |
| PlotCode.BodyHasNoFence | app.py:61 | the non-greedy body contains no fence |
| PlotCode.ExtractTakesFirstBlock | app.py:62-66 | the result is the stripped body of the first match |
| PlotCode.NoBlockWithoutWhitespace | app.py:61 | a fence followed by "x" instead of whitespace opens no block |
| PlotCode.BodySpansLines | app.py:62 | a block whose body spans lines is extracted whole |
| PlotCode.DeleteAll | app.py:92 | deleting every non-overlapping left-to-right occurrence only deletes characters |
| PlotCode.DeleteAllAbsent | app.py:92 | text without the pattern is unchanged |
| PlotCode.DeleteAllKeepsPrefix | app.py:92 | a prefix where no occurrence starts is kept as is |
| PlotCode.RewritePlotCode | app.py:92-93 | the rewritten code ends with the `st.plotly_chart` line, what precedes it is the code with characters deleted only, and code without `fig.show()` is kept whole |
| PlotCode.RewriteDropsShowCall | app.py:92-93 | a trailing `fig.show()` is removed before the display line is appended |
| PlotCode.DeletionCanReassemble | app.py:92 | one pass of deletion can leave a new `fig.show()` behind, as `str.replace` does |
| PlotCode.PlotToolCode | app.py:87-93 | the tool runs code exactly when a block was found, and that code ends with the display line |

## Left out

- The Streamlit UI (`main`, data loading and display, the pandas agents, the Groq test button): user interface and network calls.
- Running the generated plot code with `exec` (app.py:96-101): dynamic code execution. The model stops at the code string.
- `generate_report_part1` to `generate_report_part5(use_rag=...)`, which app.py calls: `MultiAgenticRAG` defines no such methods. The model has only `generate_report`, and no switch between search and direct filing text.
- `EdgarDirectManager` is modelled on its own, because no agent uses it. The `edgar` network fetch and `set_identity` are the `latestFiling` parameter. The filing is fetched again on every call, which only costs time.
- The Groq HTTP client (core/groq_llm.py) is the `complete` function. It may return any string, which covers the `""` and `"Error: ..."` replies.
- Chroma's similarity search and the embeddings are the `similaritySearch` function. It may fail, which models an exception. No top-K bound is claimed.
- `RecursiveCharacterTextSplitter` is the `split` parameter. No chunk-length or overlap bound is claimed.
- Random `uuid4` ids are the `uuid4` parameter. Their distinctness is only probable, so it is not claimed.
- `DataFrame.to_json(orient='records')` is the `recordsJson` parameter.
- `load_structured_data` and `agents/base_agent.py` are not part of this model. The orchestrator's constructor takes the table as a parameter, and the agents' `name`, `goal` and base-class fields are not modelled.
- File reads are a map from existing paths to their texts. Read and decoding errors are not modelled.
- DataManagement.ChromaStore.ClearDatabase: cannot fail in the model. A `shutil.rmtree` error that leaves the directory in place is not modelled.
- DataManagement.ChromaStore.ListChromaDocuments: cannot fail in the model. An exception from opening the Chroma store or from `db.get()` is not modelled.
- DataManagement.ChromaStore.AddCustomDocuments: cannot fail in the model. An exception from creating the directory, opening the Chroma store, `db.add_texts` or `db.persist`, and any partial write it leaves, is not modelled.
- Status-placeholder messages and logging: display side effects that do not change any result.
- StructuredData.FilterRows: `str.contains` is modelled as a literal substring test with ASCII case folding, not as a regular expression with Unicode case folding.
- Text.Lower: ASCII only; Python's `str.lower` also maps non-ASCII letters.
- Text.Upper: ASCII only, for the same reason.
- MultiAgenticRag.ProgressCallback.Call: the callback's own effect on the UI is not modelled; the callback records only how many parts were stored when it ran. An absent callback is `null`; a callable is always truthy in Python.
- ReportPart1.ReportPart1Agent.constructor: each part agent builds its field table once, from the company name, instead of at every `generate_response` call. The table depends only on the company name, which never changes, so the tables are equal.
- Tables, prompts and replies are Dafny strings (`seq<char>`). There is no encoding or Unicode normalisation.
