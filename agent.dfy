/** The data flow of `ReportAgent` (report_agents/agent.py): plan search
    queries for a question, search each query, fetch and summarise every
    URL found, collapse the summaries into one research context, and hand
    that context with the original input to the report writer.

    The services the agent talks to (the language model, the search
    backend, HTTP, the HTML-to-text extractor and the JSON parser) are not
    part of this model; they are the fields of `Services`, a parameter of
    every stage, so every property below holds whatever they return or
    raise. A call that never returns is not modelled. */
module ReportAgent {
  import opened Outcome
  import opened Strings

  /** `results_per_question`: how many results each search asks for. */
  const ResultsPerQuestion: nat := 3

  /** The separator of both joins in `_collapseListOfLists`. */
  const Separator: string := "\n\n"

  /** The two labels of the provenance tag on every summary. */
  const UrlLabel: string := "URL: "
  const SummaryLabel: string := "\n\nSUMMARY: "

  /** The text `_scrapeText` puts in front of the exception's message. */
  const FailurePrefix: string := "Failed to retrieve the webpage: "

  /** The key that `RunnablePassthrough.assign` adds to the chain's input. */
  const ResearchSummaryKey: string := "research_summary"

  /** What Python says when `.link` is looked up on a dict, and when a dict
      has no "link" key. Both are swallowed by the search step. */
  const NoLinkAttribute: string := "'dict' object has no attribute 'link'"
  const NoLinkKey: string := "'link'"

  /** The error of a chain input that has no "question" variable for the
      search prompt to fill in (the wording is this model's own). */
  const MissingQuestion: string := "missing variable: question"

  /** A Python dict of strings, as the search backend returns per result. */
  type Dict = map<string, string>

  /** The HTTP response as far as `_scrapeText` looks at it. */
  datatype Response = Response(statusCode: int, text: string)

  /** One chat message of a prompt. */
  datatype Message = Message(role: string, content: string)

  /** The prompts the agent sends to the model. The query prompt's text is
      the agent's own; the summary and report templates are kept elsewhere
      in the repository, so their prompts are identified by the variables
      they are filled with. */
  datatype Prompt =
    | QueryPrompt(messages: seq<Message>)
    | SummaryPrompt(question: string, url: string, text: Option<string>)
    | ReportPrompt(variables: Dict)

  /** The services behind the agent:
      - llm: the Gemini model followed by the string output parser;
      - search: `DuckDuckGoSearchAPIWrapper.results(query, count)`;
      - get: `requests.get(url)`;
      - extract: `BeautifulSoup(html, "html.parser").get_text(separator=" ", strip=True)`;
      - parseQueries: `json.loads` on the planner's answer, read as a list of strings. */
  datatype Services = Services(
    llm: Prompt -> Call<string>,
    search: (string, nat) -> Call<seq<Dict>>,
    get: string -> Call<Response>,
    extract: string -> Call<string>,
    parseQueries: string -> Call<seq<string>>)

  /** The record `{"question": q}` built for each planned query. */
  datatype SearchTask = SearchTask(question: string)

  /** The record `{"question": q, "url": u}` built for each URL found. */
  datatype PageTask = PageTask(question: string, url: string)

  /** Which reading of `_webSearch` a run uses: the code as written, which
      looks up `result.link` on the backend's dicts, or the corrected one,
      which subscripts `result["link"]`. */
  datatype SearchReading = AsWritten | Corrected

  // ---------------------------------------------------------------------
  // Collapse

  /** `["\n\n".join(list) for list in lol]`: one segment per branch. */
  function Segments(lol: seq<seq<string>>): seq<string>
  {
    seq(|lol|, i requires 0 <= i < |lol| => Join(Separator, lol[i]))
  }

  /** `_collapseListOfLists`: the branch segments joined with "\n\n". */
  function Collapse(lol: seq<seq<string>>): string
  {
    Join(Separator, Segments(lol))
  }

  /** Collapsing no branches gives the empty string. */
  lemma CollapseEmpty()
    ensures Collapse([]) == ""
  {
  }

  /** A single branch collapses to its summaries joined with "\n\n". */
  lemma CollapseSingle(branch: seq<string>)
    ensures Collapse([branch]) == Join(Separator, branch)
  {
  }

  /** Outer order: the branches of `a` come before those of `b`, with exactly
      one separator between the two halves. */
  lemma CollapseAppend(a: seq<seq<string>>, b: seq<seq<string>>)
    requires |a| > 0 && |b| > 0
    ensures Collapse(a + b) == Collapse(a) + Separator + Collapse(b)
  {
    assert Segments(a + b) == Segments(a) + Segments(b);
    JoinAppend(Separator, Segments(a), Segments(b));
  }

  /** When no branch is empty, the collapse is the join of all summaries in
      query order and, within a query, in URL order. */
  lemma {:induction false} CollapseFlatten(lol: seq<seq<string>>)
    requires forall i :: 0 <= i < |lol| ==> |lol[i]| > 0
    ensures Collapse(lol) == Join(Separator, Flatten(lol))
    decreases |lol|
  {
    if |lol| == 1 {
      CollapseSingle(lol[0]);
      assert Flatten(lol) == lol[0] + Flatten(lol[1..]);
      assert lol[0] + [] == lol[0];
    } else if |lol| > 1 {
      var rest := lol[1..];
      assert lol == [lol[0]] + rest;
      CollapseFlatten(rest);
      CollapseAppend([lol[0]], rest);
      CollapseSingle(lol[0]);
      assert Flatten(rest) == rest[0] + Flatten(rest[1..]);
      JoinAppend(Separator, lol[0], Flatten(rest));
    }
  }

  /** An empty branch between two non-empty groups of branches is not
      dropped: it leaves an empty segment, so two separators stand where the
      branch would have been. */
  lemma CollapseEmptyBranch(a: seq<seq<string>>, b: seq<seq<string>>)
    requires |a| > 0 && |b| > 0
    ensures Collapse(a + [[]] + b) == Collapse(a) + Separator + Separator + Collapse(b)
  {
    CollapseAppend(a + [[]], b);
    CollapseAppend(a, [[]]);
    CollapseSingle([]);
  }

  /** Wherever it stands, an empty branch contributes one empty segment to
      the outer join. */
  lemma EmptyBranchSegment(a: seq<seq<string>>, b: seq<seq<string>>)
    ensures Segments(a + [[]] + b) == Segments(a) + [""] + Segments(b)
  {
  }

  /** `n` branches that are all empty. */
  function EmptyBranches(n: nat): seq<seq<string>>
  {
    seq(n, i => [])
  }

  /** `n` copies of `s`, one after the other. */
  function Repeat(s: string, n: nat): string
  {
    if n == 0 then "" else s + Repeat(s, n - 1)
  }

  /** Repeating once more appends one more copy. */
  lemma {:induction false} RepeatSnoc(s: string, n: nat)
    ensures Repeat(s, n + 1) == Repeat(s, n) + s
    decreases n
  {
    if n > 0 {
      RepeatSnoc(s, n - 1);
    }
  }

  /** Branches that are all empty collapse to separators only: one fewer
      "\n\n" than there are branches, and nothing for no branch. */
  lemma {:induction false} CollapseEmptyBranches(n: nat)
    ensures Collapse(EmptyBranches(n)) == if n == 0 then "" else Repeat(Separator, n - 1)
    decreases n
  {
    if n == 1 {
      assert EmptyBranches(1) == [[]];
      CollapseSingle([]);
    } else if n > 1 {
      assert EmptyBranches(n) == EmptyBranches(n - 1) + [[]];
      CollapseAppend(EmptyBranches(n - 1), [[]]);
      CollapseSingle([]);
      CollapseEmptyBranches(n - 1);
      RepeatSnoc(Separator, n - 2);
    }
  }

  /** `[[a1, a2], [b1]]` collapses to "a1\n\na2\n\nb1". */
  lemma CollapseExample(a1: string, a2: string, b1: string)
    ensures Collapse([[a1, a2], [b1]]) == a1 + "\n\n" + a2 + "\n\n" + b1
  {
    assert [[a1, a2], [b1]] == [[a1, a2]] + [[b1]];
    CollapseAppend([[a1, a2]], [[b1]]);
    CollapseSingle([a1, a2]);
    CollapseSingle([b1]);
    assert [a1, a2][1..] == [a2];
  }

  /** `[[a], [], [b]]` collapses to "a\n\n\n\nb". */
  lemma CollapseEmptyBranchExample(a: string, b: string)
    ensures Collapse([[a], [], [b]]) == a + "\n\n\n\n" + b
  {
    assert [[a], [], [b]] == [[a]] + [[]] + [[b]];
    CollapseEmptyBranch([[a]], [[b]]);
    CollapseSingle([a]);
    CollapseSingle([b]);
  }

  // ---------------------------------------------------------------------
  // Provenance tag

  /** The last lambda of `_createScrapeAndSummarizeChain`. */
  function Tag(url: string, summary: string): string
  {
    UrlLabel + url + SummaryLabel + summary
  }

  /** Every tagged summary starts with "URL: ", holds the URL verbatim right
      after it, and ends with the summary. */
  lemma TagLayout(url: string, summary: string)
    ensures |Tag(url, summary)| == |UrlLabel| + |url| + |SummaryLabel| + |summary|
    ensures Tag(url, summary)[..|UrlLabel|] == "URL: "
    ensures Tag(url, summary)[|UrlLabel|..|UrlLabel| + |url|] == url
    ensures Tag(url, summary)[|UrlLabel| + |url|..|UrlLabel| + |url| + |SummaryLabel|] == "\n\nSUMMARY: "
    ensures Tag(url, summary)[|Tag(url, summary)| - |summary|..] == summary
  {
  }

  /** The index of the first newline of `s`, or `|s|` when there is none. */
  function NewlineIndex(s: string): (k: nat)
    ensures k <= |s|
    ensures forall j :: 0 <= j < k ==> s[j] != '\n'
    ensures k < |s| ==> s[k] == '\n'
    decreases |s|
  {
    if |s| == 0 || s[0] == '\n' then 0 else 1 + NewlineIndex(s[1..])
  }

  /** Reads the URL and the summary back out of a tagged summary: the URL
      runs from "URL: " to the first newline, which must open "\n\nSUMMARY: ". */
  function ParseTag(s: string): (r: Option<(string, string)>)
    ensures r.Some? ==> Tag(r.value.0, r.value.1) == s && '\n' !in r.value.0
  {
    if |s| < |UrlLabel| || s[..|UrlLabel|] != UrlLabel then None
    else
      var rest := s[|UrlLabel|..];
      var k := NewlineIndex(rest);
      if k + |SummaryLabel| <= |rest| && rest[k..k + |SummaryLabel|] == SummaryLabel then
        assert s == UrlLabel + rest[..k] + SummaryLabel + rest[k + |SummaryLabel|..];
        Some((rest[..k], rest[k + |SummaryLabel|..]))
      else None
  }

  /** Provenance is recoverable: a URL without a newline (as every URL is)
      and its summary are read back exactly from the tagged summary. */
  lemma TagRoundTrip(url: string, summary: string)
    requires '\n' !in url
    ensures ParseTag(Tag(url, summary)) == Some((url, summary))
  {
    var s := Tag(url, summary);
    var rest := s[|UrlLabel|..];
    assert rest == url + SummaryLabel + summary;
    var k := NewlineIndex(rest);
    assert rest[|url|] == '\n';
    assert forall j :: 0 <= j < |url| ==> rest[j] == url[j];
    assert k == |url|;
    assert rest[k..k + |SummaryLabel|] == SummaryLabel;
    assert rest[..k] == url;
    assert rest[k + |SummaryLabel|..] == summary;
  }

  // ---------------------------------------------------------------------
  // Search

  /** Attribute lookup `result.link` on a dict: a dict has no such
      attribute, so Python raises AttributeError. */
  function LinkAttribute(result: Dict): Call<string>
  {
    Raised(NoLinkAttribute)
  }

  /** Subscript `result["link"]`: KeyError when the key is missing. */
  function LinkItem(result: Dict): Call<string>
  {
    if "link" in result then Returned(result["link"]) else Raised(NoLinkKey)
  }

  /** `_webSearch` as written: `[result.link for result in results]` inside
      a try whose handler returns `[]`. */
  function WebSearchAsWritten(search: (string, nat) -> Call<seq<Dict>>, query: string): seq<string>
  {
    match search(query, ResultsPerQuestion)
    case Raised(_) => []
    case Returned(results) =>
      match MapCall(LinkAttribute, results)
      case Raised(_) => []
      case Returned(links) => links
  }

  /** As written, the search step finds nothing, whatever the backend
      returns: any result makes the comprehension raise, and the handler
      turns that into an empty list. */
  lemma WebSearchAsWrittenAlwaysEmpty(search: (string, nat) -> Call<seq<Dict>>, query: string)
    ensures WebSearchAsWritten(search, query) == []
  {
  }

  /** A backend answering one result with a link: as written the link is
      lost, corrected it comes through. */
  lemma WebSearchLosesLinkExample(query: string)
    ensures var backend := (q: string, n: nat) => Returned([map["link" := "https://example.org"]]);
      WebSearchAsWritten(backend, query) == [] &&
      WebSearch(backend, query) == ["https://example.org"]
  {
  }

  /** `_webSearch` with the link read by subscript: asks the backend for
      `ResultsPerQuestion` results and never raises. Any backend exception,
      or a result without a link, gives `[]`; otherwise one link per backend
      result, in backend order. */
  function WebSearch(search: (string, nat) -> Call<seq<Dict>>, query: string): (links: seq<string>)
    ensures search(query, ResultsPerQuestion).Raised? ==> links == []
    ensures (search(query, ResultsPerQuestion).Returned? &&
        forall i :: 0 <= i < |search(query, ResultsPerQuestion).value| ==>
          "link" in search(query, ResultsPerQuestion).value[i]) ==>
      |links| == |search(query, ResultsPerQuestion).value|
    ensures links == [] || (
      search(query, ResultsPerQuestion).Returned? &&
      |links| == |search(query, ResultsPerQuestion).value| &&
      forall i :: 0 <= i < |links| ==>
        var result := search(query, ResultsPerQuestion).value[i];
        "link" in result && links[i] == result["link"])
  {
    match search(query, ResultsPerQuestion)
    case Raised(_) => []
    case Returned(results) =>
      match MapCall(LinkItem, results)
      case Raised(_) => []
      case Returned(links) => links
  }

  /** The links the search step gives under either reading. */
  function SearchLinks(reading: SearchReading, search: (string, nat) -> Call<seq<Dict>>, query: string): seq<string>
  {
    match reading
    case AsWritten => WebSearchAsWritten(search, query)
    case Corrected => WebSearch(search, query)
  }

  // ---------------------------------------------------------------------
  // Scrape

  /** `_scrapeText`. It never raises and has three outcomes: a 200 response
      gives the extracted text; an exception (from the request or from the
      extraction) gives the failure message with the exception's text; any
      other status falls off the end of the function and gives `None`. */
  function ScrapeText(get: string -> Call<Response>, extract: string -> Call<string>, url: string): (text: Option<string>)
    ensures text.None? <==> get(url).Returned? && get(url).value.statusCode != 200
    ensures get(url).Raised? ==> text == Some(FailurePrefix + get(url).error)
    ensures get(url).Returned? && get(url).value.statusCode == 200 ==>
      text.Some? &&
      (extract(get(url).value.text).Returned? ==> text.value == extract(get(url).value.text).value) &&
      (extract(get(url).value.text).Raised? ==> text.value == FailurePrefix + extract(get(url).value.text).error)
  {
    match get(url)
    case Raised(e) => Some(FailurePrefix + e)
    case Returned(response) =>
      if response.statusCode == 200 then
        match extract(response.text)
        case Returned(t) => Some(t)
        case Raised(e) => Some(FailurePrefix + e)
      else None
  }

  // ---------------------------------------------------------------------
  // Chains

  /** The prompt the summary step sends for one URL of one question. */
  function SummaryPromptFor(svc: Services, question: string, url: string): Prompt
  {
    SummaryPrompt(question, url, ScrapeText(svc.get, svc.extract, url))
  }

  /** `_createScrapeAndSummarizeChain` on one `{"question", "url"}` record:
      scrape, summarise, tag. Only the model's failure propagates. */
  function SummarizePage(svc: Services, task: PageTask): (r: Call<string>)
    ensures var answer := svc.llm(SummaryPromptFor(svc, task.question, task.url));
      && (r.Returned? <==> answer.Returned?)
      && (answer.Raised? ==> r == Raised(answer.error))
      && (r.Returned? ==> r.value == Tag(task.url, answer.value))
  {
    match svc.llm(SummaryPromptFor(svc, task.question, task.url))
    case Raised(e) => Raised(e)
    case Returned(summary) => Returned(Tag(task.url, summary))
  }

  /** Every summary the page step produces carries its source: it starts
      with "URL: " and the URL and the model's summary are read back from it
      exactly. */
  lemma SummaryProvenance(svc: Services, task: PageTask)
    requires '\n' !in task.url
    requires SummarizePage(svc, task).Returned?
    ensures var tagged := SummarizePage(svc, task).value;
      && tagged[..|UrlLabel|] == "URL: "
      && ParseTag(tagged) == Some((task.url, svc.llm(SummaryPromptFor(svc, task.question, task.url)).value))
  {
    var summary := svc.llm(SummaryPromptFor(svc, task.question, task.url)).value;
    TagLayout(task.url, summary);
    TagRoundTrip(task.url, summary);
  }

  /** `[{"question": x["question"], "url": url} for url in x["urls"]]`. */
  function PageTasks(question: string, urls: seq<string>): seq<PageTask>
  {
    seq(|urls|, i requires 0 <= i < |urls| => PageTask(question, urls[i]))
  }

  /** `_createWebSearchChain` on one `{"question": q}` record: search, then
      summarise every URL the search step (under `reading`) found. It
      succeeds exactly when every summary call
      succeeds; then it holds one tagged summary per URL, in search order,
      and no URL at all gives an empty branch. */
  function Branch(svc: Services, reading: SearchReading, task: SearchTask): (r: Call<seq<string>>)
    ensures var urls := SearchLinks(reading, svc.search, task.question);
      && (r.Returned? <==> forall i :: 0 <= i < |urls| ==>
            svc.llm(SummaryPromptFor(svc, task.question, urls[i])).Returned?)
      && (r.Returned? ==> |r.value| == |urls| && forall i :: 0 <= i < |urls| ==>
            r.value[i] == Tag(urls[i], svc.llm(SummaryPromptFor(svc, task.question, urls[i])).value))
      && (|urls| == 0 ==> r == Returned([]))
  {
    var urls := SearchLinks(reading, svc.search, task.question);
    var tasks := PageTasks(task.question, urls);
    var summarize := t => SummarizePage(svc, t);
    assert forall i :: 0 <= i < |urls| ==>
      summarize(tasks[i]) == SummarizePage(svc, PageTask(task.question, urls[i]));
    MapCall(summarize, tasks)
  }

  /** The text of `search_prompt` around `{question}`. */
  const QueryPromptHead: string :=
    "Write 3 google search queries to search online that form an "
    + "objective opinion from the following: "
  const QueryPromptTail: string :=
    "\nYou must respond with a list of strings in the following format: "
    + "[\"query 1\", \"query 2\", \"query 3\"]."

  /** The text of `search_prompt` once `{question}` is filled in. */
  function QueryPromptText(question: string): string
  {
    QueryPromptHead + question + QueryPromptTail
  }

  /** `_createSearchQuestionChain`: one user message asking for three
      queries, the model's answer, then the JSON parse. A failure of either
      propagates; there is no partial list. */
  function PlanQueries(svc: Services, question: string): (r: Call<seq<string>>)
    ensures var answer := svc.llm(QueryPrompt([Message("user", QueryPromptText(question))]));
      && (answer.Raised? ==> r == Raised(answer.error))
      && (answer.Returned? ==> r == svc.parseQueries(answer.value))
  {
    match svc.llm(QueryPrompt([Message("user", QueryPromptText(question))]))
    case Raised(e) => Raised(e)
    case Returned(answer) => svc.parseQueries(answer)
  }

  /** The query prompt holds the question verbatim, right after the
      request for three queries. */
  lemma QueryPromptHoldsQuestion(question: string)
    ensures var text := QueryPromptText(question);
      |QueryPromptHead| + |question| <= |text| &&
      text[..|QueryPromptHead|] == QueryPromptHead &&
      text[|QueryPromptHead|..|QueryPromptHead| + |question|] == question
  {
  }

  /** `[{"question": q} for q in x]`. */
  function SearchTasks(queries: seq<string>): seq<SearchTask>
  {
    seq(|queries|, i requires 0 <= i < |queries| => SearchTask(queries[i]))
  }

  /** `_createFullResearchChain`: one branch per planned query, in planner
      order. A planning failure propagates unchanged. */
  function FullResearch(svc: Services, reading: SearchReading, question: string): (r: Call<seq<seq<string>>>)
    ensures PlanQueries(svc, question).Raised? ==> r == Raised(PlanQueries(svc, question).error)
    ensures r.Returned? <==>
      PlanQueries(svc, question).Returned? &&
      forall i :: 0 <= i < |PlanQueries(svc, question).value| ==>
        Branch(svc, reading, SearchTask(PlanQueries(svc, question).value[i])).Returned?
    ensures r.Returned? ==>
      |r.value| == |PlanQueries(svc, question).value| &&
      forall i :: 0 <= i < |r.value| ==>
        Branch(svc, reading, SearchTask(PlanQueries(svc, question).value[i])) == Returned(r.value[i])
  {
    match PlanQueries(svc, question)
    case Raised(e) => Raised(e)
    case Returned(queries) =>
      var branch := t => Branch(svc, reading, t);
      assert forall i :: 0 <= i < |queries| ==>
        branch(SearchTasks(queries)[i]) == Branch(svc, reading, SearchTask(queries[i]));
      MapCall(branch, SearchTasks(queries))
  }

  /** The variables of the report prompt: the chain's input with
      "research_summary" assigned. */
  function ReportVariables(input: Dict, researchSummary: string): (vars: Dict)
    ensures vars.Keys == input.Keys + {ResearchSummaryKey}
    ensures vars[ResearchSummaryKey] == researchSummary
    ensures forall k :: k in input && k != ResearchSummaryKey ==> vars[k] == input[k]
  {
    input[ResearchSummaryKey := researchSummary]
  }

  /** `createChain`: research the input's question, collapse the branches,
      and ask the report writer with the input plus the research summary.
      An input without a question, a planning failure and any summary
      failure abort the run; the report is the writer's answer verbatim. */
  function CreateChain(svc: Services, reading: SearchReading, input: Dict): (report: Call<string>)
    ensures "question" !in input ==> report == Raised(MissingQuestion)
    ensures "question" in input && FullResearch(svc, reading, input["question"]).Raised? ==>
      report == Raised(FullResearch(svc, reading, input["question"]).error)
    ensures "question" in input && FullResearch(svc, reading, input["question"]).Returned? ==>
      report == svc.llm(ReportPrompt(ReportVariables(input, Collapse(FullResearch(svc, reading, input["question"]).value))))
  {
    if "question" !in input then Raised(MissingQuestion)
    else
      match FullResearch(svc, reading, input["question"])
      case Raised(e) => Raised(e)
      case Returned(branches) =>
        svc.llm(ReportPrompt(ReportVariables(input, Collapse(branches))))
  }

  // ---------------------------------------------------------------------
  // Whole-run properties

  /** Search and fetch failures never abort a run: when the model always
      answers and the query list of this run parses, every input with a
      question gets a report, whatever the search backend, HTTP and
      extraction return or raise, under either reading of the search step. */
  lemma RunSurvivesSearchAndFetchFailures(svc: Services, reading: SearchReading, input: Dict)
    requires forall p :: svc.llm(p).Returned?
    requires "question" in input
    requires PlanQueries(svc, input["question"]).Returned?
    ensures CreateChain(svc, reading, input).Returned?
  {
  }

  /** The program as written: since the search step finds nothing, every
      planned query gives an empty branch and no summary is ever asked for,
      so whatever the summary calls would do, the writer receives the input
      plus a research summary made of separators only. */
  lemma AsWrittenRunHasNoResearch(svc: Services, input: Dict)
    requires "question" in input
    requires PlanQueries(svc, input["question"]).Returned?
    ensures var n := |PlanQueries(svc, input["question"]).value|;
      && FullResearch(svc, AsWritten, input["question"]) == Returned(EmptyBranches(n))
      && CreateChain(svc, AsWritten, input) ==
           svc.llm(ReportPrompt(ReportVariables(input, if n == 0 then "" else Repeat(Separator, n - 1))))
  {
    var queries := PlanQueries(svc, input["question"]).value;
    var n := |queries|;
    forall i | 0 <= i < n
      ensures Branch(svc, AsWritten, SearchTask(queries[i])) == Returned([])
    {
      WebSearchAsWrittenAlwaysEmpty(svc.search, queries[i]);
    }
    var branches := FullResearch(svc, AsWritten, input["question"]).value;
    assert branches == EmptyBranches(n);
    CollapseEmptyBranches(n);
  }

  /** The research summary the writer receives, for a run in which every
      query found at least one URL: all tagged summaries joined with
      "\n\n", query by query and URL by URL, so it starts with "URL: ". */
  lemma ResearchSummaryLayout(svc: Services, reading: SearchReading, input: Dict)
    requires "question" in input
    requires FullResearch(svc, reading, input["question"]).Returned?
    requires var queries := PlanQueries(svc, input["question"]).value;
      |queries| > 0 &&
      forall i :: 0 <= i < |queries| ==> |SearchLinks(reading, svc.search, queries[i])| > 0
    ensures var branches := FullResearch(svc, reading, input["question"]).value;
      var summary := Collapse(branches);
      && summary == Join(Separator, Flatten(branches))
      && |UrlLabel| <= |summary| && summary[..|UrlLabel|] == UrlLabel
      && CreateChain(svc, reading, input) == svc.llm(ReportPrompt(ReportVariables(input, summary)))
  {
    var branches := FullResearch(svc, reading, input["question"]).value;
    var queries := PlanQueries(svc, input["question"]).value;
    forall i | 0 <= i < |branches|
      ensures |branches[i]| > 0
    {
      assert Branch(svc, reading, SearchTask(queries[i])) == Returned(branches[i]);
    }
    CollapseFlatten(branches);
    var flat := Flatten(branches);
    assert flat == branches[0] + Flatten(branches[1..]);
    JoinEnds(Separator, flat);
    var urls := SearchLinks(reading, svc.search, queries[0]);
    assert Branch(svc, reading, SearchTask(queries[0])) == Returned(branches[0]);
    var first := branches[0][0];
    assert first == Tag(urls[0], svc.llm(SummaryPromptFor(svc, queries[0], urls[0])).value);
    assert flat[0] == first;
    var summary := Join(Separator, flat);
    assert summary[..|first|][..|UrlLabel|] == first[..|UrlLabel|];
  }
}
