# MultiAgent-NewsHub: the news pipeline core in Dafny

This project models the core of the news agent (`agent.py`). A request runs
through a linear graph of six steps that share one state record, `NewsState`:

1. fetch articles for a query;
2. curate them: drop articles with an empty title, deduplicate on a
   stripped, lower-cased title key, and turn each description into a summary.
   A description over 200 characters becomes its first 200 characters plus
   "..."; a shorter one is kept unchanged;
3. to 6. ask a text generator for a blog post, an executive summary, a
   categorisation and a trend analysis. Each stage serialises the curated
   articles in its own format into its own prompt template.

The model also covers the per-article explainer, `explain_article`.

The files are:

- `text.dfy` (module `Text`) holds the Python string operations the core
  relies on: `str.strip()`, `str.lower()`, `s[:n]`, `sep.join` and `str(n)`.
  It also defines `Split` on one character. The source never splits;
  `Split` is the inverse of `Join`, used to show that each stage's article
  listing can be decoded back into its lines.
- `articles.dfy` (module `Articles`) holds the article records and curation.
  - `Curate` is the specification: the articles whose title is non-empty and
    whose key no earlier titled article has.
  - `CurateArticles` is the source's loop, with its `seen_titles` set. It is
    proved equal to `Curate`.
- `generation.dfy` (module `Generation`) holds the generator contract.
  - Templates are parsed into literal segments and placeholders. `Render`
    fills them, and `PromptChain` turns an absent client or a failure into an
    `"Error: ..."` string.
  - The four stage prompts, with their real texts and serialisations, feed
    `StageOutput`. `ExplainArticle` covers the explainer.
- `pipeline.dfy` (module `Pipeline`) holds the graph and the state.
  - The graph is `Successor` and `PathFrom(Entry)`, with a functional step
    semantics `ApplyStep`/`RunPath`.
  - `NewsState` is a class. Its six step methods each overwrite one field and
    are proved against `ApplyStep`. `Invoke` is proved against a run of the
    whole graph.

The text generator is a deterministic oracle `string -> Reply`: it answers
each prompt with either a text or a failure message. The article source is a
function from (query, count) to a list of articles. It yields `[]` for a
missing key, an HTTP error, a non-"ok" status or a timeout.

`curate_articles` skips only the empty title (agent.py:88). A whitespace-only
title is not skipped by that emptiness test, so the first such title is kept
(`Articles.LoneTitledArticleKept`). Every whitespace-only title has the empty
key, so any later one is dropped as a duplicate (agent.py:90-92). In a full
run none reaches curation, because the fetch step strips every title
(agent.py:69).

## Model

| member | source | states |
|---|---|---|
| Text.Strip | agent.py:90 | The stripped title is no longer than the title, and neither of its ends is whitespace |
| Text.StripDecompose | agent.py:90 | Strip removes only whitespace, and only at the two ends: s == p + Strip(s) + q with p and q all whitespace |
| Text.StripPadded | agent.py:90 | Any whitespace padding around a text whose ends are not whitespace is exactly what strip removes |
| Text.StripIdempotent | agent.py:90 | Stripping twice is stripping once |
| Text.StripLowerCommute | agent.py:90 | Lower-casing and stripping commute, so the key does not depend on their order |
| Text.Lower | agent.py:90 | lower() keeps the length and every character except an ASCII capital, which becomes its lower-case letter; no capital remains, and whitespace stays whitespace |
| Text.LowerIdempotent | agent.py:90 | Lowering twice is lowering once |
| Text.Take | agent.py:96 | s[:n] has length min(len(s), n) and is a prefix of s |
| Text.Join | agent.py:128-131 | sep.join(parts) is "" for no parts; otherwise its length is the parts' total length plus one sep between each pair of neighbours, and it starts with the first part |
| Text.SplitJoin | agent.py:159 | The "\n".join of one or more lines without line breaks can be decoded: splitting on the separator gives the lines back |
| Text.NatToString | agent.py:129 | str(i+1) is a non-empty string of decimal digits with no leading zero |
| Text.DigitsRoundTrip | agent.py:129 | Reading back the decimal digits of n gives n |
| Text.NatToStringInjective | agent.py:129 | Different article numbers print differently |
| Articles.ToCurated | agent.py:94-101 | The curated record copies title, source, url, publication date and content verbatim; its summary starts with the first 200 (at most) characters of the description and is at most 203 characters long |
| Articles.TitleKey | agent.py:90 | The dedup key has no ASCII capital, no whitespace at either end, and is no longer than the title |
| Articles.Summarize | agent.py:96 | A description over 200 characters becomes its first 200 characters plus "..."; otherwise it is kept unchanged |
| Articles.TitleKeyIgnoresPadding | agent.py:90 | Whitespace around a title does not change its key |
| Articles.TitleKeyIgnoresCase | agent.py:90 | Titles equal up to ASCII case have the same key |
| Articles.KeptIndices | agent.py:87-93 | The kept positions are in range and strictly increasing |
| Articles.KeptIndicesExact | agent.py:87-93 | Position j is kept if and only if its title is non-empty and no earlier titled article has the same key |
| Articles.CurateArticles | agent.py:83-104 | The loop with its seen-titles set returns exactly the specification Curate |
| Articles.CurateNoLonger | agent.py:83-104 | Curation never lengthens the list; an empty input gives an empty output |
| Articles.CurateSubsequence | agent.py:87-101 | The output is an order-preserving selection of the input; each record copies its article's fields, with only the description truncated |
| Articles.CuratedTitlesDistinct | agent.py:88-102 | No curated title is empty, and no two curated titles share a key |
| Articles.FirstWithKey | agent.py:87-102 | For every titled article, the earliest titled article with its key is kept |
| Articles.CurateCoversEveryKey | agent.py:87-102 | Every key among titled inputs appears in the output, carried by an article at or before the first occurrence |
| Articles.CurateDropsLaterVariant | agent.py:90-92 | A later title equal to an earlier titled one up to ASCII case and whitespace around either title is dropped |
| Articles.LoneTitledArticleKept | agent.py:88 | A lone article with any non-empty title, a whitespace-only one included, passes the emptiness test and is curated; only the empty title is skipped |
| Articles.CaseVariantScenario | agent.py:83-104 | Of two titles that differ only in case, only the first survives, with its own description as summary |
| Articles.LongDescriptionScenario | agent.py:96 | A 250-character description becomes 200 characters plus "..." |
| Generation.Render | agent.py:118 | Filling a template fails if and only if some placeholder is unbound, and then names an unbound placeholder |
| Generation.RenderOneHole | agent.py:118 | A one-placeholder template with its variable bound renders to preamble + value + instructions |
| Generation.RenderTwoHoles | agent.py:269 | A two-placeholder template with both variables bound renders to the literals with the two values in place |
| Generation.ReplyText | agent.py:118-120 | A successful reply gives its text; a failure gives "Error: " followed by the failure's message |
| Generation.PromptChain | agent.py:114-120 | No client gives "Error: LLM not initialized"; otherwise the result is the reply to the rendered prompt, or "Error: " and the failure |
| Generation.PromptChainOutcome | agent.py:114-120 | The result is the generator's successful text or a string starting with "Error: " |
| Generation.BlogEntries | agent.py:128-131 | One entry per curated article: its "n. title (source)" header, a line break, then its summary |
| Generation.SummaryLines | agent.py:159 | One line per curated article: its 1-based number, ". ", its title, ": " and its summary |
| Generation.TitleLines | agent.py:182 | One line per curated article: "- " followed by its title |
| Generation.ArticlesText | agent.py:128-205 | A stage's article listing is empty exactly when there are no curated articles |
| Generation.StagePrompt | agent.py:133-150 | The prompt a stage sends is its template rendered with the article listing bound to the articles placeholder |
| Generation.StageOutput | agent.py:122-223 | Every stage gives "No content" without a client or without curated articles; otherwise it gives the reply to the stage's prompt |
| Generation.StageIsolated | agent.py:150 | A stage's output depends on the generator only through its reply to that stage's prompt |
| Generation.TitleLinesRoundTrip | agent.py:182 | When no title contains a line break, the categories and trends listings split back into one "- title" line per article |
| Generation.NoLineBreakInNumber | agent.py:159 | An article number contains no line break |
| Generation.SummaryLineNumber | agent.py:159 | Each summary line begins with the digits of its article's 1-based number, and those digits read back as that number |
| Generation.SummaryLinesRoundTrip | agent.py:159 | When no title or summary contains a line break, the summary listing splits back into one line per article, and line k starts with the number k+1 |
| Generation.JoinPairs | agent.py:128-131 | Joining "header\nsummary" entries with a blank line is joining the headers and summaries line by line, with empty lines between entries |
| Generation.InterleaveNoLineBreak | agent.py:128-131 | Interleaving lines without line breaks gives lines without line breaks |
| Generation.BlogLinesRoundTrip | agent.py:128-131 | When no title, source or summary contains a line break, the blog listing splits into header, summary and blank line per article |
| Generation.ExplainArticle | agent.py:245-269 | No client gives "AI not initialized"; otherwise the reply to the explain prompt with the title and at most 2000 characters of content |
| Generation.ExplainIgnoresContentTail | agent.py:269 | Content past the first 2000 characters never reaches the generator |
| Pipeline.Successor | agent.py:235-241 | Every edge moves one place along the chain, so the graph is acyclic and ends at END |
| Pipeline.PathFrom | agent.py:235-241 | The path from a node never contains END |
| Pipeline.GraphOrder | agent.py:225-243 | The run order is fetch, curate, blog, summary, categories, trends |
| Pipeline.ApplyStep | agent.py:106-223 | Each agent step writes its own field and leaves every other field, query and count included, unchanged |
| Pipeline.StageReadsOnlyCurated | agent.py:122-223 | A stage's output depends on the state only through the curated articles |
| Pipeline.RunPath | agent.py:225-243 | Running any path of steps keeps the query and the count |
| Pipeline.RunGraph | agent.py:225-243 | A run of the graph is the six steps composed in chain order |
| Pipeline.PipelineResult | agent.py:106-243 | Final state: query and count kept, the fetched articles, their curation, and each stage's output computed from that curation |
| Pipeline.NoGeneratorScenario | agent.py:124-126 | Without a generator, articles are still curated and all four outputs are "No content" |
| Pipeline.EmptyFetchScenario | agent.py:106-108 | An empty or failed fetch completes with no articles and "No content" everywhere |
| Pipeline.SummaryIsolatedInRun | agent.py:153-174 | Within a full run, the summary depends only on the reply to the summary prompt, whatever the other stages receive |
| Pipeline.NewsState.constructor | app.py:78-87 | The initial state holds the query and count, with every other field empty |
| Pipeline.NewsState.FetchNews | agent.py:106-108 | Sets the raw articles to the source's answer for (query, count), changing nothing else |
| Pipeline.NewsState.CurateNews | agent.py:110-112 | Sets the curated articles to Curate of the raw articles, changing nothing else |
| Pipeline.NewsState.GenerateBlog | agent.py:122-151 | Sets the blog content to the blog stage output, changing nothing else |
| Pipeline.NewsState.GenerateSummary | agent.py:153-174 | Sets the summary content to the summary stage output, changing nothing else |
| Pipeline.NewsState.Categorize | agent.py:176-197 | Sets the categories content to the categories stage output, changing nothing else |
| Pipeline.NewsState.AnalyzeTrends | agent.py:199-223 | Sets the trends content to the trends stage output, changing nothing else |
| Pipeline.NewsState.Invoke | agent.py:225-243 | Leaves the state equal to a run of the graph from the entry point over the old state |
| Pipeline.RunPipeline | app.py:76-89 | A fresh state built from the request and run through the graph |

## Left out

- The network part of `fetch_top_news` (agent.py:43-81) is not modelled. This includes the HTTP request, JSON decoding, the status check, per-item normalisation (title strip, content falling back to the description) and exception swallowing. The source is a function parameter that returns the articles or `[]`.
- `get_llm` and the ChatGroq client are not modelled: the model, temperature, token limit and environment variables. The client is `Absent` or a deterministic oracle, so a sampling generator that answers the same prompt differently on two calls is not captured.
- The langgraph engine is reduced to the edge list and sequential execution. The dict-subclass `NewsState` becomes a class with typed fields.
- The HTTP endpoints of `app.py` are not modelled: request validation, the topics list and JSON responses. Only the initial state it builds and the graph run are modelled.
- Generation.MissingVariableMessage: the wording of the missing-variable error differs from langchain's. It is unreachable here, because every template's variables are supplied.
- Template brace escaping is not modelled. Templates are given already parsed, and none of the source's templates contains a literal brace.
- Strings are sequences of characters, and `strip`/`lower` act on ASCII only. Non-ASCII whitespace and non-ASCII case mapping are not modelled.
- A generator reply whose `.content` is not a string is not modelled. A reply is a text or a failure message.
- Concurrency between requests is not modelled. Each run owns its state.
