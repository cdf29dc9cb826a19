/** The orchestration: the shared state record, the six steps that each
    overwrite one of its fields, and the linear graph that runs them
    (create_graph). */
module Pipeline {
  import opened Articles
  import opened Generation

  /** The collaborators of a run: the article source, queried with the search
      text and the requested count (it answers [] on any failure), and the text
      generator. */
  datatype Env = Env(fetch: (string, int) -> seq<NewsArticle>, llm: LlmClient)

  /** The value of the state record at one moment. */
  datatype Snapshot = Snapshot(
    query: string,
    numArticles: int,
    rawArticles: seq<NewsArticle>,
    curatedArticles: seq<CuratedArticle>,
    blogContent: string,
    summaryContent: string,
    categoriesContent: string,
    trendsContent: string)

  /** The state a request starts from: its query and count, everything else empty. */
  function Initial(query: string, numArticles: int): Snapshot {
    Snapshot(query, numArticles, [], [], "", "", "", "")
  }

  /** The nodes of the graph; EndNode stands for END. */
  datatype Node = FetchNode | CurateNode | StageNode(stage: Stage) | EndNode

  const Entry: Node := FetchNode

  /** The position of each node along the chain. */
  function Rank(n: Node): nat {
    match n
    case FetchNode => 0
    case CurateNode => 1
    case StageNode(Blog) => 2
    case StageNode(Summary) => 3
    case StageNode(Categories) => 4
    case StageNode(Trends) => 5
    case EndNode => 6
  }

  /** The single outgoing edge of each node; every edge moves one place forward,
      so the graph is a chain that ends at END. */
  function Successor(n: Node): (m: Node)
    requires n != EndNode
    ensures Rank(m) == Rank(n) + 1
  {
    match n
    case FetchNode => CurateNode
    case CurateNode => StageNode(Blog)
    case StageNode(Blog) => StageNode(Summary)
    case StageNode(Summary) => StageNode(Categories)
    case StageNode(Categories) => StageNode(Trends)
    case StageNode(Trends) => EndNode
  }

  /** The nodes visited from n up to, not including, END. */
  function PathFrom(n: Node): (path: seq<Node>)
    ensures EndNode !in path
    decreases 6 - Rank(n)
  {
    if n == EndNode then [] else [n] + PathFrom(Successor(n))
  }

  /** The run order fixed by create_graph. */
  lemma GraphOrder()
    ensures PathFrom(Entry) ==
            [FetchNode, CurateNode, StageNode(Blog), StageNode(Summary), StageNode(Categories), StageNode(Trends)]
  {
    assert PathFrom(StageNode(Trends)) == [StageNode(Trends)];
    assert PathFrom(StageNode(Categories)) == [StageNode(Categories), StageNode(Trends)];
    assert PathFrom(StageNode(Summary)) == [StageNode(Summary), StageNode(Categories), StageNode(Trends)];
  }

  /** The state fields a step may write; query and numArticles are never written. */
  datatype Field = RawArticlesField | CuratedArticlesField | BlogField | SummaryField | CategoriesField | TrendsField

  function Writes(n: Node): Field
    requires n != EndNode
  {
    match n
    case FetchNode => RawArticlesField
    case CurateNode => CuratedArticlesField
    case StageNode(Blog) => BlogField
    case StageNode(Summary) => SummaryField
    case StageNode(Categories) => CategoriesField
    case StageNode(Trends) => TrendsField
  }

  /** s and t agree on every field except possibly f. */
  predicate AgreeExcept(s: Snapshot, t: Snapshot, f: Field) {
    s.query == t.query && s.numArticles == t.numArticles &&
    (f != RawArticlesField ==> s.rawArticles == t.rawArticles) &&
    (f != CuratedArticlesField ==> s.curatedArticles == t.curatedArticles) &&
    (f != BlogField ==> s.blogContent == t.blogContent) &&
    (f != SummaryField ==> s.summaryContent == t.summaryContent) &&
    (f != CategoriesField ==> s.categoriesContent == t.categoriesContent) &&
    (f != TrendsField ==> s.trendsContent == t.trendsContent)
  }

  /** The output slot of a generation stage. */
  function Slot(s: Snapshot, stage: Stage): string {
    match stage
    case Blog => s.blogContent
    case Summary => s.summaryContent
    case Categories => s.categoriesContent
    case Trends => s.trendsContent
  }

  function WithSlot(s: Snapshot, stage: Stage, text: string): Snapshot {
    match stage
    case Blog => s.(blogContent := text)
    case Summary => s.(summaryContent := text)
    case Categories => s.(categoriesContent := text)
    case Trends => s.(trendsContent := text)
  }

  /** What one agent_* step does to the state: it writes its own field and
      leaves all the others, query and count included, as they were. */
  function ApplyStep(n: Node, env: Env, s: Snapshot): (t: Snapshot)
    requires n != EndNode
    ensures AgreeExcept(s, t, Writes(n))
  {
    match n
    case FetchNode => s.(rawArticles := env.fetch(s.query, s.numArticles))
    case CurateNode => s.(curatedArticles := Curate(s.rawArticles))
    case StageNode(stage) => WithSlot(s, stage, StageOutput(stage, env.llm, s.curatedArticles))
  }

  /** A generation stage reads only the curated articles: two states with the
      same curated list get the same text in that stage's slot, whatever the
      other slots hold. */
  lemma StageReadsOnlyCurated(stage: Stage, env: Env, s: Snapshot, t: Snapshot)
    requires s.curatedArticles == t.curatedArticles
    ensures Slot(ApplyStep(StageNode(stage), env, s), stage) == Slot(ApplyStep(StageNode(stage), env, t), stage)
  {
  }

  /** Runs the steps of a path in order; no step changes the query or the count. */
  function RunPath(path: seq<Node>, env: Env, s: Snapshot): (t: Snapshot)
    requires EndNode !in path
    ensures t.query == s.query && t.numArticles == s.numArticles
  {
    if path == [] then s else RunPath(path[1..], env, ApplyStep(path[0], env, s))
  }

  lemma RunPathStep(path: seq<Node>, env: Env, s: Snapshot)
    requires EndNode !in path && path != []
    ensures RunPath(path, env, s) == RunPath(path[1..], env, ApplyStep(path[0], env, s))
  {
  }

  /** A run of the graph is the six steps composed in the chain's order. */
  lemma RunGraph(env: Env, s: Snapshot)
    ensures RunPath(PathFrom(Entry), env, s) ==
            ApplyStep(StageNode(Trends), env,
              ApplyStep(StageNode(Categories), env,
                ApplyStep(StageNode(Summary), env,
                  ApplyStep(StageNode(Blog), env,
                    ApplyStep(CurateNode, env,
                      ApplyStep(FetchNode, env, s))))))
  {
    GraphOrder();
    var p0 := PathFrom(Entry);
    var s1 := ApplyStep(FetchNode, env, s);
    var s2 := ApplyStep(CurateNode, env, s1);
    var s3 := ApplyStep(StageNode(Blog), env, s2);
    var s4 := ApplyStep(StageNode(Summary), env, s3);
    var s5 := ApplyStep(StageNode(Categories), env, s4);
    var s6 := ApplyStep(StageNode(Trends), env, s5);
    var p1 := [CurateNode, StageNode(Blog), StageNode(Summary), StageNode(Categories), StageNode(Trends)];
    var p2 := [StageNode(Blog), StageNode(Summary), StageNode(Categories), StageNode(Trends)];
    var p3 := [StageNode(Summary), StageNode(Categories), StageNode(Trends)];
    var p4 := [StageNode(Categories), StageNode(Trends)];
    var p5 := [StageNode(Trends)];
    assert p0[1..] == p1 && p1[1..] == p2 && p2[1..] == p3 && p3[1..] == p4 && p4[1..] == p5 && p5[1..] == [];
    RunPathStep(p0, env, s);
    RunPathStep(p1, env, s1);
    RunPathStep(p2, env, s2);
    RunPathStep(p3, env, s3);
    RunPathStep(p4, env, s4);
    RunPathStep(p5, env, s5);
  }

  /** The final state of a run: query and count as given, the fetched articles,
      their curation, and each stage's output computed from that curated list. */
  lemma PipelineResult(env: Env, s: Snapshot)
    ensures var r := RunPath(PathFrom(Entry), env, s);
            r.query == s.query && r.numArticles == s.numArticles &&
            r.rawArticles == env.fetch(s.query, s.numArticles) &&
            r.curatedArticles == Curate(r.rawArticles) &&
            r.blogContent == StageOutput(Blog, env.llm, r.curatedArticles) &&
            r.summaryContent == StageOutput(Summary, env.llm, r.curatedArticles) &&
            r.categoriesContent == StageOutput(Categories, env.llm, r.curatedArticles) &&
            r.trendsContent == StageOutput(Trends, env.llm, r.curatedArticles)
  {
    RunGraph(env, s);
    var s1 := ApplyStep(FetchNode, env, s);
    var s2 := ApplyStep(CurateNode, env, s1);
    var s3 := ApplyStep(StageNode(Blog), env, s2);
    var s4 := ApplyStep(StageNode(Summary), env, s3);
    var s5 := ApplyStep(StageNode(Categories), env, s4);
    var s6 := ApplyStep(StageNode(Trends), env, s5);
    assert s1.rawArticles == env.fetch(s.query, s.numArticles);
    assert s2.curatedArticles == Curate(s1.rawArticles);
  }

  /** Without a text generator every stage reports "No content", while the
      articles are still fetched and curated. */
  lemma NoGeneratorScenario(env: Env, s: Snapshot)
    requires env.llm.Absent?
    ensures var r := RunPath(PathFrom(Entry), env, s);
            r.curatedArticles == Curate(env.fetch(s.query, s.numArticles)) &&
            r.blogContent == NoContent && r.summaryContent == NoContent &&
            r.categoriesContent == NoContent && r.trendsContent == NoContent
  {
    PipelineResult(env, s);
  }

  /** When the source yields nothing (a failed or timed-out fetch) the run
      still completes, with no curated articles and "No content" everywhere. */
  lemma EmptyFetchScenario(env: Env, s: Snapshot)
    requires env.fetch(s.query, s.numArticles) == []
    ensures var r := RunPath(PathFrom(Entry), env, s);
            r.rawArticles == [] && r.curatedArticles == [] &&
            r.blogContent == NoContent && r.summaryContent == NoContent &&
            r.categoriesContent == NoContent && r.trendsContent == NoContent
  {
    PipelineResult(env, s);
    CurateNoLonger([]);
  }

  /** Stage isolation across a whole run: two generators that give the same
      reply to the summary prompt produce the same summary, even if they differ
      (one failing, say) on every other prompt. */
  lemma SummaryIsolatedInRun(env1: Env, env2: Env, s: Snapshot)
    requires env1.fetch(s.query, s.numArticles) == env2.fetch(s.query, s.numArticles)
    requires env1.llm.Present? && env2.llm.Present?
    requires var cs := Curate(env1.fetch(s.query, s.numArticles));
             env1.llm.invoke(StagePrompt(Summary, cs)) == env2.llm.invoke(StagePrompt(Summary, cs))
    ensures RunPath(PathFrom(Entry), env1, s).summaryContent == RunPath(PathFrom(Entry), env2, s).summaryContent
  {
    PipelineResult(env1, s);
    PipelineResult(env2, s);
    var cs := Curate(env1.fetch(s.query, s.numArticles));
    if cs != [] {
      StageIsolated(Summary, env1.llm, env2.llm, cs);
    }
  }

  /** The state record threaded through the graph (NewsState); each agent_*
      step is a method that overwrites exactly one field. */
  class NewsState {
    var query: string
    var numArticles: int
    var rawArticles: seq<NewsArticle>
    var curatedArticles: seq<CuratedArticle>
    var blogContent: string
    var summaryContent: string
    var categoriesContent: string
    var trendsContent: string

    function View(): Snapshot
      reads this
    {
      Snapshot(query, numArticles, rawArticles, curatedArticles,
               blogContent, summaryContent, categoriesContent, trendsContent)
    }

    /** The initial state a request builds. */
    constructor (query: string, numArticles: int)
      ensures View() == Initial(query, numArticles)
    {
      this.query := query;
      this.numArticles := numArticles;
      rawArticles := [];
      curatedArticles := [];
      blogContent := "";
      summaryContent := "";
      categoriesContent := "";
      trendsContent := "";
    }

    /** agent_fetch_news */
    method FetchNews(env: Env)
      modifies this`rawArticles
      ensures View() == ApplyStep(FetchNode, env, old(View()))
    {
      rawArticles := env.fetch(query, numArticles);
    }

    /** agent_curate_news */
    method CurateNews(env: Env)
      modifies this`curatedArticles
      ensures View() == ApplyStep(CurateNode, env, old(View()))
    {
      var curated := CurateArticles(rawArticles);
      curatedArticles := curated;
    }

    /** agent_generate_blog */
    method GenerateBlog(env: Env)
      modifies this`blogContent
      ensures View() == ApplyStep(StageNode(Blog), env, old(View()))
    {
      ghost var before := View();
      var text := StageOutput(Blog, env.llm, curatedArticles);
      blogContent := text;
      assert View() == before.(blogContent := text);
    }

    /** agent_generate_summary */
    method GenerateSummary(env: Env)
      modifies this`summaryContent
      ensures View() == ApplyStep(StageNode(Summary), env, old(View()))
    {
      summaryContent := StageOutput(Summary, env.llm, curatedArticles);
    }

    /** agent_categorize */
    method Categorize(env: Env)
      modifies this`categoriesContent
      ensures View() == ApplyStep(StageNode(Categories), env, old(View()))
    {
      categoriesContent := StageOutput(Categories, env.llm, curatedArticles);
    }

    /** agent_analyze_trends */
    method AnalyzeTrends(env: Env)
      modifies this`trendsContent
      ensures View() == ApplyStep(StageNode(Trends), env, old(View()))
    {
      trendsContent := StageOutput(Trends, env.llm, curatedArticles);
    }

    /** The compiled graph's invoke: the steps from the entry point to END. */
    method Invoke(env: Env)
      modifies this
      ensures View() == RunPath(PathFrom(Entry), env, old(View()))
    {
      RunGraph(env, View());
      FetchNews(env);
      CurateNews(env);
      GenerateBlog(env);
      GenerateSummary(env);
      Categorize(env);
      AnalyzeTrends(env);
    }
  }

  /** A request: a fresh state for the query and count, run through the graph. */
  method RunPipeline(env: Env, query: string, numArticles: int) returns (state: NewsState)
    ensures fresh(state)
    ensures state.View() == RunPath(PathFrom(Entry), env, Initial(query, numArticles))
  {
    state := new NewsState(query, numArticles);
    state.Invoke(env);
  }
}
