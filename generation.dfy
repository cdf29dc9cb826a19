/** The contract between the pipeline stages and the text generator: prompt
    templates and their rendering (prompt_chain), the per-stage serialisation of
    the curated articles, the four generation stages and the per-article
    explainer (explain_article). */
module Generation {
  import opened Text
  import opened Articles

  /** What the text generator answers for one prompt: its text, or the message
      of the exception it raised. */
  datatype Reply = Success(text: string) | Failure(message: string)

  /** The text generator: absent when no API key is configured, otherwise an
      oracle from a rendered prompt to a reply. */
  datatype LlmClient = Absent | Present(invoke: string -> Reply)

  /** A prompt template after parsing: literal text and named placeholders. */
  datatype Segment = Lit(text: string) | Hole(name: string)

  type Template = seq<Segment>

  /** The outcome of filling a template: the prompt, or the first placeholder
      that the data does not bind. */
  datatype Rendering = Prompt(text: string) | Missing(name: string)

  /** Fills every placeholder with its value from data. */
  function Render(t: Template, data: map<string, string>): (r: Rendering)
    ensures r.Missing? <==> exists k :: 0 <= k < |t| && t[k].Hole? && t[k].name !in data
    ensures r.Missing? ==> r.name !in data
  {
    if t == [] then Prompt("")
    else
      var rest := Render(t[1..], data);
      assert forall k :: 1 <= k < |t| ==> t[k] == t[1..][k - 1];
      match t[0]
      case Lit(s) => (if rest.Missing? then rest else Prompt(s + rest.text))
      case Hole(n) =>
        if n !in data then Missing(n)
        else if rest.Missing? then rest
        else Prompt(data[n] + rest.text)
  }

  lemma RenderOneHole(pre: string, name: string, post: string, data: map<string, string>)
    requires name in data
    ensures Render([Lit(pre), Hole(name), Lit(post)], data) == Prompt(pre + data[name] + post)
  {
    var t := [Lit(pre), Hole(name), Lit(post)];
    assert t[1..] == [Hole(name), Lit(post)];
    assert t[1..][1..] == [Lit(post)];
    assert t[1..][1..][1..] == [];
    assert Render([Lit(post)], data) == Prompt(post + "");
    assert post + "" == post;
    assert Render(t[1..], data) == Prompt(data[name] + post);
  }

  lemma RenderTwoHoles(a: string, x: string, b: string, y: string, c: string, data: map<string, string>)
    requires x in data && y in data
    ensures Render([Lit(a), Hole(x), Lit(b), Hole(y), Lit(c)], data) == Prompt(a + data[x] + b + data[y] + c)
  {
    var t := [Lit(a), Hole(x), Lit(b), Hole(y), Lit(c)];
    assert t[1..] == [Hole(x), Lit(b), Hole(y), Lit(c)];
    RenderOneHole(b, y, c, data);
    assert t[1..][1..] == [Lit(b), Hole(y), Lit(c)];
  }

  /** What a generation call becomes: the generated text, or "Error: " and the
      failure's message. */
  function ReplyText(reply: Reply): (r: string)
    ensures reply.Success? ==> r == reply.text
    ensures reply.Failure? ==> |r| >= 7 && r[..7] == "Error: " && r[7..] == reply.message
  {
    match reply
    case Success(text) => text
    case Failure(message) => "Error: " + message
  }

  const LlmNotInitialized: string := "Error: LLM not initialized"

  /** The failure message of a template that names a variable the data lacks. */
  function MissingVariableMessage(name: string): string {
    "missing variable " + name
  }

  /** prompt_chain: renders the template and asks the generator, turning an
      absent client and every failure into an "Error: ..." string. */
  function PromptChain(llm: LlmClient, t: Template, data: map<string, string>): (r: string)
    ensures llm.Absent? ==> r == LlmNotInitialized
    ensures llm.Present? && Render(t, data).Prompt? ==> r == ReplyText(llm.invoke(Render(t, data).text))
    ensures llm.Present? && Render(t, data).Missing? ==> r == "Error: " + MissingVariableMessage(Render(t, data).name)
  {
    if llm.Absent? then LlmNotInitialized
    else match Render(t, data)
      case Prompt(p) => ReplyText(llm.invoke(p))
      case Missing(n) => "Error: " + MissingVariableMessage(n)
  }

  /** Whatever happens, prompt_chain answers with the generator's own text or an error marker. */
  lemma PromptChainOutcome(llm: LlmClient, t: Template, data: map<string, string>)
    ensures var r := PromptChain(llm, t, data);
            (llm.Present? && Render(t, data).Prompt? && llm.invoke(Render(t, data).text).Success? &&
             r == llm.invoke(Render(t, data).text).text) ||
            (|r| >= 7 && r[..7] == "Error: ")
  {
  }

  /** The four generation stages of the pipeline. */
  datatype Stage = Blog | Summary | Categories | Trends

  const BlogPreamble: string :=
    "Write a comprehensive, well-structured blog post analyzing these news articles:\n\nARTICLES:\n"
  const SummaryPreamble: string :=
    "Create a concise executive summary of these articles:\n\nARTICLES:\n"
  const CategoriesPreamble: string :=
    "Organize these articles into logical categories:\n\nARTICLES:\n"
  const TrendsPreamble: string :=
    "Analyze trends in these articles:\n\nARTICLES:\n"
  const BlogInstructions: string :=
    "\n\nRequirements:\n1. **Headline** - Compelling and descriptive (8-12 words)\n2. **Introduction** - Context and overview (150-200 words)\n3. **Main Analysis** - 3-5 sections covering key points with insights\n4. **Key Takeaways** - 5-7 bullet points of important insights\n5. **Future Implications** - What comes next and why it matters\n6. **Conclusion** - Summary and call to action\n\nStyle: Professional, engaging, data-driven. Total: 1000-1500 words.\n\nBEGIN:"
  const SummaryInstructions: string :=
    "\n\nProvide:\n1. **Opening Statement** - Main theme in 1-2 sentences\n2. **Key Developments** - 3-4 major points with specifics\n3. **Takeaway** - What readers should remember (2-3 sentences)\n\nTarget: 150-200 words, clear and scannable."
  const CategoriesInstructions: string :=
    "\n\nFor each category:\n1. **[Category Name]**\n   - List relevant articles\n   - Brief explanation of why grouped together\n\nKeep categories clear and useful. Maximum 5 categories."
  const TrendsInstructions: string :=
    "\n\nIdentify and explain:\n1. **Main Trends** - What patterns emerge?\n2. **Most Discussed Topics** - What's getting attention?\n3. **Key Developments** - Major breakthroughs or changes\n4. **Market Impact** - Who benefits/loses?\n5. **Timeline** - When will key events likely happen?\n6. **Future Outlook** - What comes next?\n\nBe specific and insightful."

  /** The text of each stage's template before its one placeholder. */
  function Preamble(stage: Stage): string {
    match stage
    case Blog => BlogPreamble
    case Summary => SummaryPreamble
    case Categories => CategoriesPreamble
    case Trends => TrendsPreamble
  }

  /** The text of each stage's template after its one placeholder. */
  function Instructions(stage: Stage): string {
    match stage
    case Blog => BlogInstructions
    case Summary => SummaryInstructions
    case Categories => CategoriesInstructions
    case Trends => TrendsInstructions
  }

  const ArticlesVariable: string := "articles"

  function StageTemplate(stage: Stage): Template {
    [Lit(Preamble(stage)), Hole(ArticlesVariable), Lit(Instructions(stage))]
  }

  /** The first line of a blog entry: 1-based number, title and source. */
  function BlogHeader(i: nat, c: CuratedArticle): string {
    NatToString(i + 1) + ". " + c.title + " (" + c.source + ")"
  }

  /** One entry per article: its header line, a line break, and its summary. */
  function BlogEntries(cs: seq<CuratedArticle>): (entries: seq<string>)
    ensures |entries| == |cs|
    ensures forall k :: 0 <= k < |cs| ==>
              BlogHeader(k, cs[k]) + "\n" <= entries[k] &&
              entries[k][|BlogHeader(k, cs[k])| + 1..] == cs[k].summary
  {
    seq(|cs|, i requires 0 <= i < |cs| => BlogHeader(i, cs[i]) + "\n" + cs[i].summary)
  }

  function SummaryLine(i: nat, c: CuratedArticle): string {
    NatToString(i + 1) + ". " + c.title + ": " + c.summary
  }

  /** One line per article: its 1-based number, ". ", its title, ": " and its summary. */
  function SummaryLines(cs: seq<CuratedArticle>): (lines: seq<string>)
    ensures |lines| == |cs|
    ensures forall k :: 0 <= k < |cs| ==> lines[k] == NatToString(k + 1) + ". " + cs[k].title + ": " + cs[k].summary
  {
    seq(|cs|, i requires 0 <= i < |cs| => SummaryLine(i, cs[i]))
  }

  /** One line per article: "- " and its title. */
  function TitleLines(cs: seq<CuratedArticle>): (lines: seq<string>)
    ensures |lines| == |cs|
    ensures forall k :: 0 <= k < |cs| ==> |lines[k]| >= 2 && lines[k][..2] == "- " && lines[k][2..] == cs[k].title
  {
    seq(|cs|, i requires 0 <= i < |cs| => "- " + cs[i].title)
  }

  /** The value each stage substitutes for its placeholder. */
  function ArticlesText(stage: Stage, cs: seq<CuratedArticle>): (text: string)
    ensures text == "" <==> cs == []
  {
    match stage
    case Blog => Join("\n\n", BlogEntries(cs))
    case Summary => Join("\n", SummaryLines(cs))
    case Categories => Join("\n", TitleLines(cs))
    case Trends => Join("\n", TitleLines(cs))
  }

  /** The prompt a stage sends: its template with the serialised articles in place. */
  function StagePrompt(stage: Stage, cs: seq<CuratedArticle>): (p: string)
    ensures Render(StageTemplate(stage), map[ArticlesVariable := ArticlesText(stage, cs)]) == Prompt(p)
  {
    RenderOneHole(Preamble(stage), ArticlesVariable, Instructions(stage), map[ArticlesVariable := ArticlesText(stage, cs)]);
    Preamble(stage) + ArticlesText(stage, cs) + Instructions(stage)
  }

  const NoContent: string := "No content"

  /** One generation stage (agent_generate_blog, agent_generate_summary,
      agent_categorize, agent_analyze_trends): "No content" without a client or
      without articles, otherwise the generator's reply to the stage's prompt. */
  function StageOutput(stage: Stage, llm: LlmClient, cs: seq<CuratedArticle>): (r: string)
    ensures llm.Absent? || cs == [] ==> r == NoContent
    ensures llm.Present? && cs != [] ==> r == ReplyText(llm.invoke(StagePrompt(stage, cs)))
  {
    if llm.Absent? || cs == [] then NoContent
    else
      PromptChain(llm, StageTemplate(stage), map[ArticlesVariable := ArticlesText(stage, cs)])
  }

  /** A stage's output depends on the generator only through the reply to its
      own prompt: a failure on another stage's prompt cannot change it. */
  lemma StageIsolated(stage: Stage, llm1: LlmClient, llm2: LlmClient, cs: seq<CuratedArticle>)
    requires llm1.Present? && llm2.Present? && cs != []
    requires llm1.invoke(StagePrompt(stage, cs)) == llm2.invoke(StagePrompt(stage, cs))
    ensures StageOutput(stage, llm1, cs) == StageOutput(stage, llm2, cs)
  {
  }


  /** Python's "\n".join on a non-empty list of lines without line breaks is
      undone by splitting on "\n". */
  lemma {:induction false} TitleLinesRoundTrip(cs: seq<CuratedArticle>)
    requires cs != []
    requires forall k :: 0 <= k < |cs| ==> '\n' !in cs[k].title
    ensures Split(ArticlesText(Categories, cs), '\n') == TitleLines(cs)
    ensures Split(ArticlesText(Trends, cs), '\n') == TitleLines(cs)
    ensures forall k :: 0 <= k < |cs| ==> TitleLines(cs)[k][2..] == cs[k].title
  {
    var lines := TitleLines(cs);
    assert forall k :: 0 <= k < |lines| ==> '\n' !in lines[k] by {
      assert '\n' !in "- ";
    }
    SplitJoin(lines, '\n');
  }

  lemma NoLineBreakInNumber(n: nat)
    ensures '\n' !in NatToString(n)
  {
    var s := NatToString(n);
    assert forall k :: 0 <= k < |s| ==> IsDigit(s[k]);
  }

  /** The summary stage's serialisation, split on "\n", gives back one numbered
      line per article when no title or summary contains a line break. */
  lemma {:induction false} SummaryLinesRoundTrip(cs: seq<CuratedArticle>)
    requires cs != []
    requires forall k :: 0 <= k < |cs| ==> '\n' !in cs[k].title && '\n' !in cs[k].summary
    ensures Split(ArticlesText(Summary, cs), '\n') == SummaryLines(cs)
    ensures forall k :: 0 <= k < |cs| ==>
              DigitsValue(SummaryLines(cs)[k][..|NatToString(k + 1)|]) == k + 1
  {
    var lines := SummaryLines(cs);
    forall k | 0 <= k < |lines|
      ensures '\n' !in lines[k]
    {
      NoLineBreakInNumber(k + 1);
    }
    SplitJoin(lines, '\n');
    forall k | 0 <= k < |cs|
      ensures DigitsValue(lines[k][..|NatToString(k + 1)|]) == k + 1
    {
      SummaryLineNumber(k, cs[k]);
    }
  }

  /** A summary line starts with the article's 1-based number. */
  lemma SummaryLineNumber(i: nat, c: CuratedArticle)
    ensures |NatToString(i + 1)| <= |SummaryLine(i, c)|
    ensures DigitsValue(SummaryLine(i, c)[..|NatToString(i + 1)|]) == i + 1
  {
    var num := NatToString(i + 1);
    assert SummaryLine(i, c) == num + (". " + c.title + ": " + c.summary);
    assert SummaryLine(i, c)[..|num|] == num;
    DigitsRoundTrip(i + 1);
  }

  /** The lines h0, s0, "", h1, s1, "", ..., h(n-1), s(n-1). */
  function Interleave(hs: seq<string>, ss: seq<string>): seq<string>
    requires |hs| == |ss|
  {
    if |hs| == 0 then []
    else if |hs| == 1 then [hs[0], ss[0]]
    else [hs[0], ss[0], ""] + Interleave(hs[1..], ss[1..])
  }

  function Pairs(hs: seq<string>, ss: seq<string>): seq<string>
    requires |hs| == |ss|
  {
    seq(|hs|, k requires 0 <= k < |hs| => hs[k] + "\n" + ss[k])
  }

  /** Two-line entries joined by blank lines are the interleaved lines joined by newlines. */
  lemma {:induction false} JoinPairs(hs: seq<string>, ss: seq<string>)
    requires |hs| == |ss|
    ensures Join("\n\n", Pairs(hs, ss)) == Join("\n", Interleave(hs, ss))
  {
    var ps := Pairs(hs, ss);
    if |hs| == 1 {
      assert Join("\n", [hs[0], ss[0]]) == hs[0] + "\n" + Join("\n", [ss[0]]);
    } else if |hs| > 1 {
      var rest := Interleave(hs[1..], ss[1..]);
      var lines := [hs[0], ss[0], ""] + rest;
      assert ps[1..] == Pairs(hs[1..], ss[1..]);
      JoinPairs(hs[1..], ss[1..]);
      assert |rest| >= 2;
      assert lines[1..] == [ss[0], ""] + rest;
      assert lines[1..][1..] == [""] + rest;
      assert lines[1..][1..][1..] == rest;
      calc {
        Join("\n", lines);
        hs[0] + "\n" + Join("\n", [ss[0], ""] + rest);
        hs[0] + "\n" + (ss[0] + "\n" + Join("\n", [""] + rest));
        hs[0] + "\n" + (ss[0] + "\n" + ("" + "\n" + Join("\n", rest)));
        { assert "\n\n" == "\n" + ("" + "\n"); }
        ps[0] + "\n\n" + Join("\n\n", ps[1..]);
      }
    }
  }

  /** The blog stage's serialisation, split on "\n", gives back each article's
      header line and summary line, the entries separated by one empty line,
      when no title, source or summary contains a line break. */
  lemma BlogLinesRoundTrip(cs: seq<CuratedArticle>)
    requires cs != []
    requires forall k :: 0 <= k < |cs| ==>
               '\n' !in cs[k].title && '\n' !in cs[k].source && '\n' !in cs[k].summary
    ensures var headers := seq(|cs|, k requires 0 <= k < |cs| => BlogHeader(k, cs[k]));
            var summaries := seq(|cs|, k requires 0 <= k < |cs| => cs[k].summary);
            Split(ArticlesText(Blog, cs), '\n') == Interleave(headers, summaries)
  {
    var headers := seq(|cs|, k requires 0 <= k < |cs| => BlogHeader(k, cs[k]));
    var summaries := seq(|cs|, k requires 0 <= k < |cs| => cs[k].summary);
    assert BlogEntries(cs) == Pairs(headers, summaries);
    JoinPairs(headers, summaries);
    forall k | 0 <= k < |cs|
      ensures '\n' !in headers[k]
    {
      NoLineBreakInNumber(k + 1);
    }
    InterleaveNoLineBreak(headers, summaries);
    SplitJoin(Interleave(headers, summaries), '\n');
  }

  lemma {:induction false} InterleaveNoLineBreak(hs: seq<string>, ss: seq<string>)
    requires |hs| == |ss| && |hs| >= 1
    requires forall k :: 0 <= k < |hs| ==> '\n' !in hs[k] && '\n' !in ss[k]
    ensures |Interleave(hs, ss)| >= 1
    ensures forall k :: 0 <= k < |Interleave(hs, ss)| ==> '\n' !in Interleave(hs, ss)[k]
  {
    if |hs| > 1 {
      InterleaveNoLineBreak(hs[1..], ss[1..]);
    }
  }

  const ContentLimit: nat := 2000
  const AiNotInitialized: string := "AI not initialized"

  const ExplainIntro: string := "Explain this article in simple, clear terms:\n\nTitle: "
  const ExplainBetween: string := "\nContent: "
  const ExplainInstructions: string :=
    "\n\nProvide:\n1. **What Happened** (2-3 sentences)\n   - What is the main news/event?\n   \n2. **Why It Matters** (2-3 sentences)\n   - Why is this important?\n   - Who is affected?\n   \n3. **Impact** (2-3 sentences)\n   - What are the consequences?\n   - What should people know?\n\nKeep it clear and easy to understand."

  const ExplainTemplate: Template :=
    [Lit(ExplainIntro), Hole("title"), Lit(ExplainBetween), Hole("content"), Lit(ExplainInstructions)]

  /** explain_article: "AI not initialized" without a client, otherwise the
      generator's reply to the explain prompt, which carries the title and at
      most the first 2000 characters of the content. */
  function ExplainArticle(llm: LlmClient, title: string, content: string): (r: string)
    ensures llm.Absent? ==> r == AiNotInitialized
    ensures llm.Present? ==>
              r == ReplyText(llm.invoke(ExplainIntro + title + ExplainBetween + Take(content, ContentLimit) + ExplainInstructions))
  {
    if llm.Absent? then AiNotInitialized
    else
      var data := map["title" := title, "content" := Take(content, ContentLimit)];
      RenderTwoHoles(ExplainIntro, "title", ExplainBetween, "content", ExplainInstructions, data);
      PromptChain(llm, ExplainTemplate, data)
  }

  /** Content past the first 2000 characters never reaches the generator. */
  lemma ExplainIgnoresContentTail(llm: LlmClient, title: string, content: string, tail: string)
    requires |content| >= ContentLimit
    ensures ExplainArticle(llm, title, content + tail) == ExplainArticle(llm, title, content)
  {
    assert (content + tail)[..ContentLimit] == content[..ContentLimit];
  }
}
