/** The article records and the curation step (curate_articles): a stable
    deduplication on a case- and padding-insensitive title key that also
    truncates each description to a short summary. */
module Articles {
  import opened Text

  /** One article as the fetch step delivers it. */
  datatype NewsArticle = NewsArticle(
    title: string,
    description: string,
    source: string,
    url: string,
    publishedAt: string,
    content: string)

  /** The record curation emits for a kept article (a dict in the source). */
  datatype CuratedArticle = CuratedArticle(
    title: string,
    summary: string,
    source: string,
    url: string,
    published: string,
    content: string)

  const SummaryLimit: nat := 200
  const Ellipsis: string := "..."

  /** A description longer than 200 characters becomes its first 200 characters
      followed by "..."; a shorter one, the empty one included, is kept as it is. */
  function Summarize(description: string): (summary: string)
    ensures |description| > SummaryLimit ==>
              |summary| == SummaryLimit + |Ellipsis| &&
              summary[..SummaryLimit] == description[..SummaryLimit] &&
              summary[SummaryLimit..] == Ellipsis
    ensures |description| <= SummaryLimit ==> summary == description
  {
    if |description| > SummaryLimit then Take(description, SummaryLimit) + Ellipsis else description
  }

  /** The record kept for an article: every field but the description copied
      verbatim, and a summary that begins with the description's first (at
      most) 200 characters and is at most 203 characters long. */
  function ToCurated(a: NewsArticle): (c: CuratedArticle)
    ensures c.title == a.title && c.source == a.source && c.url == a.url &&
            c.published == a.publishedAt && c.content == a.content
    ensures |c.summary| <= SummaryLimit + |Ellipsis|
    ensures Take(a.description, SummaryLimit) <= c.summary
  {
    CuratedArticle(a.title, Summarize(a.description), a.source, a.url, a.publishedAt, a.content)
  }

  /** c carries a's fields verbatim (the title unstripped, the content untruncated),
      except that its summary is a's description truncated. */
  predicate CopiedFrom(c: CuratedArticle, a: NewsArticle) {
    c.title == a.title && c.summary == Summarize(a.description) && c.source == a.source &&
    c.url == a.url && c.published == a.publishedAt && c.content == a.content
  }

  /** The deduplication key: the title stripped and lower-cased. */
  function TitleKey(title: string): (key: string)
    ensures |key| <= |title|
    ensures forall k :: 0 <= k < |key| ==> !('A' <= key[k] <= 'Z')
    ensures key == "" || (!IsSpace(key[0]) && !IsSpace(key[|key| - 1]))
  {
    Lower(Strip(title))
  }

  /** Whitespace around a title does not change its key. */
  lemma TitleKeyIgnoresPadding(p: string, t: string, q: string)
    requires AllSpace(p) && AllSpace(q)
    ensures TitleKey(p + t + q) == TitleKey(t)
  {
    var p', q' := StripDecompose(t);
    var m := Strip(t);
    assert p + t + q == (p + p') + m + (q' + q);
    assert AllSpace(p + p') by {
      assert forall k :: 0 <= k < |p + p'| ==> (p + p')[k] == if k < |p| then p[k] else p'[k - |p|];
    }
    assert AllSpace(q' + q) by {
      assert forall k :: 0 <= k < |q' + q| ==> (q' + q)[k] == if k < |q'| then q'[k] else q[k - |q'|];
    }
    StripPadded(p + p', m, q' + q);
  }

  /** Titles that differ only in the case of ASCII letters have the same key. */
  lemma TitleKeyIgnoresCase(t: string, u: string)
    requires Lower(t) == Lower(u)
    ensures TitleKey(t) == TitleKey(u)
  {
    StripLowerCommute(t);
    StripLowerCommute(u);
  }

  /** Whether the article at index j survives curation: it has a title, and no
      earlier article that has a title shares its key. */
  predicate Kept(a: seq<NewsArticle>, j: nat)
    requires j < |a|
  {
    a[j].title != "" &&
    forall i :: 0 <= i < j && a[i].title != "" ==> TitleKey(a[i].title) != TitleKey(a[j].title)
  }

  /** Whether j survives depends only on the articles up to j. */
  lemma KeptPrefix(a: seq<NewsArticle>, m: nat)
    requires m <= |a|
    ensures forall j :: 0 <= j < m ==> (Kept(a[..m], j) <==> Kept(a, j))
  {
    assert forall i :: 0 <= i < m ==> a[..m][i] == a[i];
  }

  /** The positions of the surviving articles, in input order. */
  function KeptIndices(a: seq<NewsArticle>): (idx: seq<nat>)
    ensures forall k :: 0 <= k < |idx| ==> idx[k] < |a|
    ensures forall k, l :: 0 <= k < l < |idx| ==> idx[k] < idx[l]
  {
    if a == [] then []
    else KeptIndices(a[..|a| - 1]) + (if Kept(a, |a| - 1) then [|a| - 1] else [])
  }

  lemma KeptIndicesSnoc(a: seq<NewsArticle>, x: NewsArticle)
    ensures KeptIndices(a + [x]) == KeptIndices(a) + (if Kept(a + [x], |a|) then [|a|] else [])
  {
    assert (a + [x])[..|a|] == a;
  }

  /** Exactly the positions that satisfy Kept are selected. */
  lemma {:induction false} KeptIndicesExact(a: seq<NewsArticle>)
    ensures forall j :: 0 <= j < |a| ==> (j in KeptIndices(a) <==> Kept(a, j))
  {
    if a != [] {
      var init := a[..|a| - 1];
      assert a == init + [a[|a| - 1]];
      KeptIndicesSnoc(init, a[|a| - 1]);
      KeptIndicesExact(init);
      KeptPrefix(a, |a| - 1);
    }
  }

  /** What curate_articles returns: the surviving articles, in input order, each
      turned into its curated record. */
  function Curate(a: seq<NewsArticle>): seq<CuratedArticle> {
    var idx := KeptIndices(a);
    seq(|idx|, k requires 0 <= k < |idx| => ToCurated(a[idx[k]]))
  }

  /** The keys of the articles in a that have a title. */
  function TitledKeys(a: seq<NewsArticle>): set<string> {
    set i | 0 <= i < |a| && a[i].title != "" :: TitleKey(a[i].title)
  }

  /** Appending one article to the input appends at most that article to the output. */
  lemma CurateSnoc(a: seq<NewsArticle>, x: NewsArticle)
    ensures Curate(a + [x]) == Curate(a) + (if Kept(a + [x], |a|) then [ToCurated(x)] else [])
    ensures Kept(a + [x], |a|) <==> x.title != "" && TitleKey(x.title) !in TitledKeys(a)
  {
    var b := a + [x];
    assert forall i :: 0 <= i < |a| ==> b[i] == a[i];
    KeptIndicesSnoc(a, x);
  }

  lemma TitledKeysSnoc(a: seq<NewsArticle>, x: NewsArticle)
    ensures TitledKeys(a + [x]) == TitledKeys(a) + (if x.title != "" then {TitleKey(x.title)} else {})
  {
    var b := a + [x];
    assert forall i :: 0 <= i < |a| ==> b[i] == a[i];
    assert b[|a|] == x;
  }

  /** curate_articles: one pass over the input with a growing set of seen keys. */
  method CurateArticles(articles: seq<NewsArticle>) returns (curated: seq<CuratedArticle>)
    ensures curated == Curate(articles)
  {
    curated := [];
    var seenTitles: set<string> := {};
    for i := 0 to |articles|
      invariant curated == Curate(articles[..i])
      invariant seenTitles == TitledKeys(articles[..i])
    {
      var article := articles[i];
      assert articles[..i + 1] == articles[..i] + [article];
      CurateSnoc(articles[..i], article);
      TitledKeysSnoc(articles[..i], article);
      if article.title == "" {
        continue;
      }
      var titleKey := TitleKey(article.title);
      if titleKey in seenTitles {
        continue;
      }
      curated := curated + [ToCurated(article)];
      seenTitles := seenTitles + {titleKey};
    }
    assert articles[..|articles|] == articles;
  }

  /** A strictly increasing sequence of naturals below n has at most n elements. */
  lemma {:induction false} IncreasingBelow(idx: seq<nat>, n: nat)
    requires forall k :: 0 <= k < |idx| ==> idx[k] < n
    requires forall k, l :: 0 <= k < l < |idx| ==> idx[k] < idx[l]
    ensures |idx| <= n
  {
    if |idx| > 0 {
      var last := idx[|idx| - 1];
      IncreasingBelow(idx[..|idx| - 1], last);
    }
  }

  /** Curation only removes: the output is never longer than the input, and
      empty input gives empty output. */
  lemma CurateNoLonger(a: seq<NewsArticle>)
    ensures |Curate(a)| <= |a|
    ensures a == [] ==> Curate(a) == []
  {
    IncreasingBelow(KeptIndices(a), |a|);
  }

  /** The output is an order-preserving selection of the input, each element
      copied field by field from its source article. */
  lemma CurateSubsequence(a: seq<NewsArticle>) returns (idx: seq<nat>)
    ensures |idx| == |Curate(a)|
    ensures forall k :: 0 <= k < |idx| ==> idx[k] < |a|
    ensures forall k, l :: 0 <= k < l < |idx| ==> idx[k] < idx[l]
    ensures forall k :: 0 <= k < |idx| ==> CopiedFrom(Curate(a)[k], a[idx[k]])
  {
    idx := KeptIndices(a);
  }

  /** No curated article has an empty title, and no two share a key. */
  lemma CuratedTitlesDistinct(a: seq<NewsArticle>)
    ensures forall k :: 0 <= k < |Curate(a)| ==> Curate(a)[k].title != ""
    ensures forall k, l :: 0 <= k < l < |Curate(a)| ==>
              TitleKey(Curate(a)[k].title) != TitleKey(Curate(a)[l].title)
  {
    var idx := KeptIndices(a);
    var r := Curate(a);
    KeptIndicesExact(a);
    forall k | 0 <= k < |r|
      ensures r[k].title != ""
    {
      assert idx[k] in idx;
    }
    forall k, l | 0 <= k < l < |r|
      ensures TitleKey(r[k].title) != TitleKey(r[l].title)
    {
      assert idx[l] in idx;
      assert Kept(a, idx[l]);
      assert r[k].title == a[idx[k]].title && r[l].title == a[idx[l]].title;
    }
  }

  /** The first titled article with a given key is the one that is kept. */
  lemma {:induction false} FirstWithKey(a: seq<NewsArticle>, j: nat) returns (f: nat)
    requires j < |a| && a[j].title != ""
    ensures f <= j && Kept(a, f)
    ensures TitleKey(a[f].title) == TitleKey(a[j].title)
    decreases j
  {
    if Kept(a, j) {
      f := j;
    } else {
      var i :| 0 <= i < j && a[i].title != "" && TitleKey(a[i].title) == TitleKey(a[j].title);
      f := FirstWithKey(a, i);
    }
  }

  /** Every key that occurs among titled inputs occurs in the output, carried by
      the earliest such input. */
  lemma CurateCoversEveryKey(a: seq<NewsArticle>, j: nat)
    requires j < |a| && a[j].title != ""
    ensures exists k :: 0 <= k < |Curate(a)| && KeptIndices(a)[k] <= j &&
              TitleKey(Curate(a)[k].title) == TitleKey(a[j].title)
  {
    var idx := KeptIndices(a);
    var f := FirstWithKey(a, j);
    KeptIndicesExact(a);
    assert f in idx;
    var k :| 0 <= k < |idx| && idx[k] == f;
    assert Curate(a)[k].title == a[f].title;
  }

  /** A later article whose title equals an earlier titled article's up to
      ASCII case and whitespace around either title is dropped. */
  lemma CurateDropsLaterVariant(a: seq<NewsArticle>, i: nat, j: nat,
                                p: string, u: string, q: string, p': string, u': string, q': string)
    requires i < j < |a| && a[i].title != ""
    requires a[i].title == p + u + q && AllSpace(p) && AllSpace(q)
    requires a[j].title == p' + u' + q' && AllSpace(p') && AllSpace(q')
    requires Lower(u) == Lower(u')
    ensures j !in KeptIndices(a)
  {
    TitleKeyIgnoresPadding(p, u, q);
    TitleKeyIgnoresPadding(p', u', q');
    TitleKeyIgnoresCase(u, u');
    KeptIndicesExact(a);
  }

  /** Only the empty title is skipped: a lone article with any other title,
      a whitespace-only one such as "   " included, is kept. */
  lemma LoneTitledArticleKept(x: NewsArticle)
    requires x.title != ""
    ensures Curate([x]) == [ToCurated(x)]
  {
    assert KeptIndices([x]) == [0] by {
      assert [x][..0] == [];
      assert Kept([x], 0);
    }
  }

  /** Two titles that differ in case: one article survives, the first, with its
      description as summary. */
  lemma CaseVariantScenario(first: NewsArticle, second: NewsArticle)
    requires first.title == "AI wins award" && first.description == "desc A"
    requires second.title == "ai WINS award" && second.description == " desc B"
    ensures |Curate([first, second])| == 1
    ensures Curate([first, second])[0].title == "AI wins award"
    ensures Curate([first, second])[0].summary == "desc A"
  {
    var a := [first, second];
    assert Lower(second.title) == Lower(first.title);
    CurateDropsLaterVariant(a, 0, 1, "", first.title, "", "", second.title, "");
    assert "" + first.title + "" == first.title;
    assert "" + second.title + "" == second.title;
    assert Kept(a, 0);
    assert KeptIndices(a) == [0] by {
      assert KeptIndices(a[..1]) == [0] by {
        assert a[..1][..0] == [];
      }
    }
  }

  /** A 250-character description becomes 200 of its characters and "...". */
  lemma LongDescriptionScenario(x: NewsArticle)
    requires x.description == seq(250, _ => 'x')
    ensures ToCurated(x).summary == seq(200, _ => 'x') + "..."
  {
    var s := ToCurated(x).summary;
    assert s == s[..200] + s[200..];
  }
}
