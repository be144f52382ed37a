# ResearchAI report agent — a Dafny model of its data flow

`ReportAgent` (report_agents/agent.py) turns one question into a research
report. It asks the language model for three search queries. It searches each
query for up to three URLs. It fetches every URL and summarises the page with
the model. It tags each summary with its URL, collapses all summaries into one
research context, and asks the model to write the report from the original
input plus that context.

This project models that data flow with pure Dafny functions and proves its
shape:

- which stage can abort the run and which failures are absorbed;
- how many records and summaries each fan-out produces, and in what order;
- the exact separator layout of the collapsed context;
- the provenance tag that every summary carries.

Files:

- `outcome.dfy` (module `Outcome`):
  - `Option`, standing for Python's `None` or a value;
  - `Call`, the outcome of a Python call: a returned value or a raised exception's message;
  - `MapCall`, the ordered map that LangChain's `.map()` performs.
- `strings.dfy` (module `Strings`): Python's `str.join` and list flattening, with the lemmas that the collapse needs.
- `agent.dfy` (module `ReportAgent`): the agent's stages, from `_webSearch` to `createChain`, and the whole-run lemmas.

The services the agent calls are fields of the datatype `ReportAgent.Services`.
Every stage takes that datatype as a parameter, so every property holds
whatever those services return or raise. Every service call answers in the
model; a call that never returns is left out. The services are:

- the Gemini model followed by `StrOutputParser`;
- the DuckDuckGo search wrapper;
- `requests.get`;
- BeautifulSoup's text extraction;
- `json.loads` on the planner's answer.

Python exceptions become `Raised` values, and a stage that catches them maps
them to the value its handler returns. The `.map()` of a chain is an
order-preserving sequential map. When several elements raise, the whole map
raises the exception of the first failing element in input order, which is
the one a batch that collects its results by index surfaces.

Behaviour of the code that a reader might not expect, and that the model keeps:

- A non-200 response makes `_scrapeText` fall off its end and return `None`. It does not produce a "Failed to retrieve the webpage" message. The summary prompt then receives `None` as its text.
- The failure message carries the exception's text, not the URL.
- A query whose search finds nothing still adds an empty segment to the collapsed context. Between two non-empty branches, its neighbours end up separated by "\n\n\n\n".
- A failure of the summarising model call is not isolated. It aborts the whole run, like a planning or report-writing failure.

## Model

| member | source | states |
|---|---|---|
| `Outcome.MapCall` | report_agents/agent.py:73 | `.map()` succeeds exactly when every element does. It then gives one result per input, in input order. Otherwise it raises the error of the first failing element. |
| `Strings.JoinAppend` | report_agents/agent.py:56-57 | Joining two non-empty lists one after the other is joining each and putting exactly one separator between the two results. |
| `Strings.JoinEnds` | report_agents/agent.py:56-57 | A `"\n\n".join` starts with its first part and ends with its last part. |
| `ReportAgent.CollapseEmpty` | report_agents/agent.py:56-57 | Collapsing an empty outer list gives the empty string. |
| `ReportAgent.CollapseSingle` | report_agents/agent.py:55-57 | One branch collapses to its summaries joined with "\n\n". |
| `ReportAgent.CollapseAppend` | report_agents/agent.py:55-57 | Outer order is preserved. The collapse of `a + b` is the collapse of `a`, one "\n\n", then the collapse of `b`. |
| `ReportAgent.CollapseFlatten` | report_agents/agent.py:55-57 | When no branch is empty, the collapse equals the "\n\n"-join of all summaries, taken query by query and URL by URL. |
| `ReportAgent.CollapseEmptyBranch` | report_agents/agent.py:56-57 | An empty branch between two non-empty groups of branches is not dropped. It leaves an empty segment, so two separators stand where it would be. |
| `ReportAgent.EmptyBranchSegment` | report_agents/agent.py:56 | Wherever it stands, an empty branch contributes one empty segment to the outer join. |
| `ReportAgent.CollapseEmptyBranches` | report_agents/agent.py:55-57 | `n` empty branches collapse to `n - 1` separators and nothing else. No branches collapse to the empty string. |
| `ReportAgent.CollapseExample` | report_agents/agent.py:55-57 | `[[a1, a2], [b1]]` collapses to `a1\n\na2\n\nb1`. |
| `ReportAgent.CollapseEmptyBranchExample` | report_agents/agent.py:56-57 | `[[a], [], [b]]` collapses to `a\n\n\n\nb`. |
| `ReportAgent.TagLayout` | report_agents/agent.py:67 | A tagged summary starts with "URL: ", holds the URL verbatim right after it, then "\n\nSUMMARY: ", and ends with the summary. |
| `ReportAgent.ParseTag` | report_agents/agent.py:67 | Inverse of the tag. Whatever it reads back re-tags to exactly the input, and the URL it reads has no newline. |
| `ReportAgent.TagRoundTrip` | report_agents/agent.py:67 | The URL (which has no newline) and the summary are read back exactly from their tag. |
| `ReportAgent.WebSearchAsWrittenAlwaysEmpty` | report_agents/agent.py:39-44 | As written (`result.link` on the dicts the search wrapper returns), the search step returns `[]` for every backend answer. |
| `ReportAgent.WebSearchLosesLinkExample` | report_agents/agent.py:41-42 | A backend result `{"link": "https://example.org"}` gives `[]` as written and `["https://example.org"]` corrected. |
| `ReportAgent.WebSearch` | report_agents/agent.py:39-44 | The search step never raises. A backend exception gives `[]`. Otherwise the result is either `[]` or one link per backend result, in backend order. When every result has a link, it is exactly one per result. The backend is asked for `results_per_question` = 3 results. |
| `ReportAgent.ScrapeText` | report_agents/agent.py:46-53 | `_scrapeText` has exactly three outcomes. Status 200 gives the extracted text. An exception gives "Failed to retrieve the webpage: " + its message. Any other status gives `None`, and only that case gives `None`. |
| `ReportAgent.SummarizePage` | report_agents/agent.py:59-67 | The page step fails exactly when the summary call fails, with that call's error. Otherwise it returns the summary tagged with the page's URL. |
| `ReportAgent.SummaryProvenance` | report_agents/agent.py:67 | Every produced summary starts with "URL: ", and its URL and the model's summary can be read back from it. |
| `ReportAgent.Branch` | report_agents/agent.py:69-74 | The search step runs under either reading, as written or corrected. A branch succeeds exactly when every per-URL summary call succeeds. It then holds one tagged summary per URL found, in search order, all for the same question. Zero URLs give an empty branch. |
| `ReportAgent.PlanQueries` | report_agents/agent.py:76-77 | A model failure propagates. Otherwise the plan is exactly what the JSON parse of the answer gives, failure included, never a partial list. |
| `ReportAgent.QueryPromptHoldsQuestion` | report_agents/agent.py:27-37 | The query prompt holds the question verbatim, right after the request for three queries. |
| `ReportAgent.FullResearch` | report_agents/agent.py:79-84 | A planning failure propagates unchanged. Otherwise research succeeds exactly when every branch does. It then holds one branch per planned query, in planner order: branch `i` is the branch of query `i`. |
| `ReportAgent.ReportVariables` | report_agents/agent.py:98-101 | The report prompt receives every other input key unchanged, plus `research_summary`. That key overwrites any value of the same name in the input. |
| `ReportAgent.CreateChain` | report_agents/agent.py:86-105 | An input without a question, or a failed research, aborts the run with that error. Otherwise the report is the writer's answer to the input plus `research_summary` = the collapse of the research branches. |
| `ReportAgent.RunSurvivesSearchAndFetchFailures` | report_agents/agent.py:39-53 | Search and fetch failures never abort a run. When the model always answers and this run's plan parses, every input with a question gets a report. This holds whatever the search backend, HTTP and extraction return or raise, under either search reading. |
| `ReportAgent.AsWrittenRunHasNoResearch` | report_agents/agent.py:39-44 | For the code as written, once the plan parses, every planned query gives an empty branch and no summary is asked for. The writer receives the input plus a `research_summary` of `n - 1` separators for `n` queries, or the empty string for none. |
| `ReportAgent.ResearchSummaryLayout` | report_agents/agent.py:98-101 | When every query finds a URL, the writer receives the "\n\n"-join of all tagged summaries in query and URL order. That text starts with "URL: ". |

## Findings

| source | as written | input that shows it | evidently intended | confidence | as-written member | corrected member |
|---|---|---|---|---|---|---|
| report_agents/agent.py:42 | `result.link` is read as an attribute. The DuckDuckGo wrapper returns each result as a dict, so this raises AttributeError. The handler turns that into `[]`, so every search finds nothing. | the backend answers `[{"link": "https://example.org", ...}]` | `result["link"]`, one link per result | medium: rests on the wrapper's documented dict results; not executed | `ReportAgent.WebSearchAsWrittenAlwaysEmpty` | `ReportAgent.WebSearch` |

From `Branch` onwards, each stage takes a `SearchReading` parameter. `AsWritten` runs the code as written and `Corrected` runs the corrected search. `AsWrittenRunHasNoResearch` states what the code as written does on a whole run. The other whole-run lemmas hold under either reading. `ResearchSummaryLayout` describes a run in which every query finds a URL, which only the corrected reading allows.

## Left out

- A service call that never returns is not modelled: every service answers by returning or raising. `requests.get` has no timeout (report_agents/agent.py:48), so in the program one unresponsive server can block its branch and the whole run forever.
- The language model, the search backend, HTTP and HTML extraction are not modelled. They are opaque services, and every lemma quantifies over all of them.
- The prompt templates `WRITER_SYSTEM_PROMPT`, `SUMMARY_TEMPLATE` and `RESEARCH_REPORT_TEMPLATE` are not part of this model, because report_agents/templates.py is not part of it. The summary and report prompts are identified by the variables that fill them.
- The query prompt is modelled as one user message. How LangChain renders a chat prompt for a completion model is left out.
- `json.loads` is modelled as a parse that gives a list of strings or raises. Other JSON values, which the comprehension would iterate differently, are left out, and so is the JSON grammar.
- The concurrency of `.map()` is left out. It is an ordered sequential map. Which exception surfaces when several elements fail concurrently is fixed to the first one in input order.
- The text of the exception raised for an input without "question" is not modelled. The model uses its own label, `MissingQuestion`.
- Loading `.env`, the API key and the model settings in `__init__` are configuration I/O and are not modelled.
- The FastAPI/langserve routes in main.py and setup.py and the uvicorn launch are not modelled.
