/** The scrapers and their merge. Each of the four adapters receives the elements
    its selector matched on the loaded page, in document order, and turns at most
    the first three of them into articles tagged with the adapter's source name;
    any exception inside an adapter turns its whole result into the empty list.
    `fetchNews` runs the adapters one after another and concatenates their
    results in a fixed order. The headless browser is not modelled: what it
    delivers is an input, `None` when any step of the adapter's browser session
    threw: launching, opening a page, navigating, evaluating the page script, or
    closing the browser. */
module NewsFetcher {
  import opened Wrappers
  import opened Text

  /** One headline, as every adapter produces it and as the window receives it. */
  datatype Article = Article(title: string, url: string, source: string)

  /** Every article of `news` carries the tag `source`. */
  predicate Tagged(news: seq<Article>, source: string)
  {
    forall a :: a in news ==> a.source == source
  }

  const HACKER_NEWS := "Hacker News"
  const DEV_TO := "Dev.to"
  const VELOG := "Velog"
  const AWS := "AWS"

  /** The `index < 3` guard of the three loops and the `slice(0, 3)` of AWS. */
  const PER_SOURCE := 3

  const VELOG_ORIGIN := "https://velog.io"
  const VELOG_UNTITLED := "제목 없음"
  const AWS_UNTITLED := "No Title"
  const AWS_NO_LINK := "No Link"

  /** An anchor matched by `.title a` (Hacker News) or `.crayons-story__title a`
      (Dev.to): its rendered text and its resolved `href`. */
  datatype Link = Link(text: string, href: string)

  /** An `<a>` inside a Velog post card: the rendered text of its first `<h4>`
      and its raw `href` attribute, each `None` when absent. */
  datatype Anchor = Anchor(h4: Option<string>, href: Option<string>)

  /** A Velog post card (`.PostCard_block__FTMsy`) with its `<a>` descendants in
      document order. */
  datatype Card = Card(anchors: seq<Anchor>)

  /** An AWS `.blog-post`: the text of its first `<h2>` and the `href` of its
      first `<a>`, each `None` when there is no such element. */
  datatype Post = Post(h2: Option<string>, firstHref: Option<string>)

  /** What one adapter's browser session yields: the elements its selector
      matched, in document order, or `None` when launching the browser, opening
      a page, navigating, evaluating the page script, or closing the browser
      threw. */
  type Scrape<T> = Option<seq<T>>

  function Min(a: int, b: int): int
  {
    if a < b then a else b
  }

  /** The first three elements of `s`, in order. */
  function FirstThree<T>(s: seq<T>): (r: seq<T>)
    ensures |r| == Min(PER_SOURCE, |s|)
    ensures r == s[..|r|]
  {
    if |s| <= PER_SOURCE then s else s[..PER_SOURCE]
  }

  // ---------------------------------------------------------------------------
  // Hacker News and Dev.to

  function LinkArticle(link: Link, source: string): Article
  {
    Article(Trim(link.text), link.href, source)
  }

  /** The articles the Hacker News and Dev.to loops collect from their matched
      anchors. */
  function LinkArticles(links: seq<Link>, source: string): (r: seq<Article>)
    ensures |r| == Min(PER_SOURCE, |links|)
    ensures forall i :: 0 <= i < |r| ==> r[i] == LinkArticle(links[i], source)
  {
    var first := FirstThree(links);
    seq(|first|, i requires 0 <= i < |first| => LinkArticle(first[i], source))
  }

  /** The `forEach` over the matched anchors that pushes one article for each
      of the first three (newsFetcher.js, fetchHackerNews and fetchDevTo). */
  method ExtractLinks(links: seq<Link>, source: string) returns (results: seq<Article>)
    ensures results == LinkArticles(links, source)
  {
    results := [];
    var index := 0;
    while index < |links|
      invariant 0 <= index <= |links|
      invariant |results| == Min(PER_SOURCE, index)
      invariant forall i :: 0 <= i < |results| ==> results[i] == LinkArticle(links[i], source)
    {
      if index < PER_SOURCE {
        var title := Trim(links[index].text);
        var url := links[index].href;
        results := results + [Article(title, url, source)];
      }
      index := index + 1;
    }
    assert |results| == |LinkArticles(links, source)|;
  }

  /** What `fetchHackerNews` resolves to. */
  function HackerNewsArticles(scrape: Scrape<Link>): (r: seq<Article>)
    ensures |r| <= PER_SOURCE
    ensures Tagged(r, HACKER_NEWS)
    ensures scrape.None? ==> r == []
  {
    match scrape
    case None => []
    case Some(links) => LinkArticles(links, HACKER_NEWS)
  }

  method FetchHackerNews(scrape: Scrape<Link>) returns (articles: seq<Article>)
    ensures articles == HackerNewsArticles(scrape)
  {
    match scrape {
      case None =>
        articles := [];
      case Some(links) =>
        articles := ExtractLinks(links, HACKER_NEWS);
    }
  }

  /** What `fetchDevTo` resolves to. */
  function DevToArticles(scrape: Scrape<Link>): (r: seq<Article>)
    ensures |r| <= PER_SOURCE
    ensures Tagged(r, DEV_TO)
    ensures scrape.None? ==> r == []
  {
    match scrape
    case None => []
    case Some(links) => LinkArticles(links, DEV_TO)
  }

  method FetchDevTo(scrape: Scrape<Link>) returns (articles: seq<Article>)
    ensures articles == DevToArticles(scrape)
  {
    match scrape {
      case None =>
        articles := [];
      case Some(links) =>
        articles := ExtractLinks(links, DEV_TO);
    }
  }

  // ---------------------------------------------------------------------------
  // Velog

  /** The value `url` starts from when a card has no second anchor. */
  const VELOG_FALLBACK := "#"

  /** A URL that does not start with "https" is read as a path on Velog. */
  function VelogUrl(href: string): (url: string)
    ensures StartsWith(url, "https")
    ensures url == href <==> StartsWith(href, "https")
    ensures |href| <= |url| && url[|url| - |href|..] == href
    ensures url == href || url == VELOG_ORIGIN + href
  {
    if !StartsWith(href, "https") then
      assert (VELOG_ORIGIN + href)[..5] == VELOG_ORIGIN[..5];
      VELOG_ORIGIN + href
    else
      href
  }

  /** One pass of the Velog loop body over a card: the article it pushes, or
      `None` when it throws. */
  function VelogCard(card: Card): (r: Option<Article>)
    ensures r.None? <==> |card.anchors| < 2 || card.anchors[1].href.None?
    ensures r.Some? ==>
      (r.value.source == VELOG && r.value.url == VelogUrl(card.anchors[1].href.value))
    ensures r.Some? && card.anchors[1].h4.None? ==> r.value.title == VELOG_UNTITLED
    ensures r.Some? && card.anchors[1].h4.Some? ==> r.value.title == Trim(card.anchors[1].h4.value)
  {
    var linkElement := if |card.anchors| > 1 then Some(card.anchors[1]) else None;
    var url := if linkElement.Some? then linkElement.value.href else Some(VELOG_FALLBACK);
    if linkElement.None? then
      None // `querySelector` is called on undefined
    else
      var title := match linkElement.value.h4
        case Some(text) => Trim(text)
        case None => VELOG_UNTITLED;
      match url
      case None => None // `getAttribute` gave null and `startsWith` is called on it
      case Some(u) => Some(Article(title, VelogUrl(u), VELOG))
  }

  /** `xs` passed one by one, in order, through a step that may throw: every
      step's result, or `None` when one of them throws. */
  function CollectAll<T, U>(xs: seq<T>, step: T -> Option<U>): Option<seq<U>>
  {
    if xs == [] then Some([])
    else if step(xs[0]).None? then None
    else
      var rest := CollectAll(xs[1..], step);
      if rest.None? then None else Some([step(xs[0]).value] + rest.value)
  }

  /** One step that throws makes the whole pass throw, and only then. */
  lemma {:induction false} CollectAllFails<T, U>(xs: seq<T>, step: T -> Option<U>)
    ensures CollectAll(xs, step).None? <==> exists i :: 0 <= i < |xs| && step(xs[i]).None?
  {
    if xs != [] {
      var tail := xs[1..];
      CollectAllFails(tail, step);
      if step(xs[0]).Some? && CollectAll(tail, step).None? {
        var j :| 0 <= j < |tail| && step(tail[j]).None?;
        assert xs[j + 1] == tail[j];
      }
      if CollectAll(xs, step).Some? {
        forall i | 0 <= i < |xs|
          ensures step(xs[i]).Some?
        {
          if i > 0 {
            assert xs[i] == tail[i - 1];
          }
        }
      }
    }
  }

  /** A pass that does not throw yields each element's own result, in order. */
  lemma {:induction false} CollectAllSucceeds<T, U>(xs: seq<T>, step: T -> Option<U>)
    ensures CollectAll(xs, step).Some? ==>
      (|CollectAll(xs, step).value| == |xs|
       && forall i :: 0 <= i < |xs| ==> step(xs[i]) == Some(CollectAll(xs, step).value[i]))
  {
    if xs != [] && CollectAll(xs, step).Some? {
      var tail := xs[1..];
      CollectAllSucceeds(tail, step);
      var r := CollectAll(xs, step).value;
      var rest := CollectAll(tail, step).value;
      assert r == [step(xs[0]).value] + rest;
      forall i | 0 <= i < |xs|
        ensures step(xs[i]) == Some(r[i])
      {
        if i > 0 {
          assert xs[i] == tail[i - 1];
        }
      }
    }
  }

  /** What `fetchVelog` resolves to: the Velog `forEach` over the first three
      cards, or nothing when it throws. */
  function VelogArticles(scrape: Scrape<Card>): (r: seq<Article>)
    ensures scrape.None? ==> r == []
  {
    match scrape
    case None => []
    case Some(cards) =>
      match CollectAll(FirstThree(cards), VelogCard)
      case None => []
      case Some(articles) => articles
  }

  /** A card among the first three that lacks its second anchor, or whose
      second anchor lacks an `href`, empties the whole Velog result. */
  lemma VelogCardThrows(cards: seq<Card>, i: nat)
    requires i < Min(PER_SOURCE, |cards|) && VelogCard(cards[i]).None?
    ensures VelogArticles(Some(cards)) == []
  {
    var first := FirstThree(cards);
    assert first[i] == cards[i];
    CollectAllFails(first, VelogCard);
  }

  /** When none of the first three cards throws, the Velog result has one
      article per card, each that card's, in order. */
  lemma VelogCardsPass(cards: seq<Card>)
    requires forall i :: 0 <= i < Min(PER_SOURCE, |cards|) ==> VelogCard(cards[i]).Some?
    ensures |VelogArticles(Some(cards))| == Min(PER_SOURCE, |cards|)
    ensures forall i :: 0 <= i < Min(PER_SOURCE, |cards|) ==>
      VelogCard(cards[i]) == Some(VelogArticles(Some(cards))[i])
  {
    var first := FirstThree(cards);
    assert forall i :: 0 <= i < |first| ==> first[i] == cards[i];
    CollectAllFails(first, VelogCard);
    CollectAllSucceeds(first, VelogCard);
  }

  /** Velog yields at most three articles, each tagged "Velog" with a URL
      starting with "https". */
  lemma VelogArticlesShape(scrape: Scrape<Card>)
    ensures |VelogArticles(scrape)| <= PER_SOURCE
    ensures Tagged(VelogArticles(scrape), VELOG)
    ensures forall a :: a in VelogArticles(scrape) ==> StartsWith(a.url, "https")
  {
    if scrape.Some? {
      var first := FirstThree(scrape.value);
      CollectAllSucceeds(first, VelogCard);
      var r := VelogArticles(scrape);
      forall a | a in r
        ensures a.source == VELOG && StartsWith(a.url, "https")
      {
        var i :| 0 <= i < |r| && r[i] == a;
        assert VelogCard(first[i]) == Some(a);
      }
    }
  }

  /** The body of the Velog `forEach` for one of the first three cards: the
      article it pushes, or `None` when it throws. */
  method VisitVelogCard(card: Card) returns (article: Option<Article>)
    ensures article == VelogCard(card)
  {
    var linkElement := if |card.anchors| > 1 then Some(card.anchors[1]) else None;
    var url := if linkElement.Some? then linkElement.value.href else Some(VELOG_FALLBACK);
    if linkElement.None? {
      // `querySelector` is called on undefined
      return None;
    }
    var title := if linkElement.value.h4.Some? then Trim(linkElement.value.h4.value) else VELOG_UNTITLED;
    if url.None? {
      // `startsWith` is called on null
      return None;
    }
    var u := url.value;
    if !StartsWith(u, "https") {
      u := VELOG_ORIGIN + u;
    }
    article := Some(Article(title, u, VELOG));
  }

  method FetchVelog(scrape: Scrape<Card>) returns (articles: seq<Article>)
    ensures articles == VelogArticles(scrape)
  {
    if scrape.None? {
      return [];
    }
    var cards := scrape.value;
    var results := [];
    var index := 0;
    while index < |cards|
      invariant 0 <= index <= |cards|
      invariant |results| == Min(PER_SOURCE, index)
      invariant forall i :: 0 <= i < |results| ==> VelogCard(cards[i]) == Some(results[i])
    {
      if index < PER_SOURCE {
        var article := VisitVelogCard(cards[index]);
        if article.None? {
          // the exception leaves the loop and the adapter returns []
          VelogCardThrows(cards, index);
          return [];
        }
        results := results + [article.value];
      }
      index := index + 1;
    }
    VelogCardsPass(cards);
    assert results == VelogArticles(scrape);
    articles := results;
  }

  // ---------------------------------------------------------------------------
  // AWS

  function PostArticle(post: Post): Article
  {
    Article(
      match post.h2 case Some(text) => Trim(text) case None => AWS_UNTITLED,
      match post.firstHref case Some(href) => href case None => AWS_NO_LINK,
      AWS)
  }

  /** `fetchAWS`: the first three posts, each mapped to an article, missing
      elements replaced by placeholders. */
  function FetchAws(scrape: Scrape<Post>): (r: seq<Article>)
    ensures |r| <= PER_SOURCE
    ensures scrape.None? ==> r == []
    ensures scrape.Some? ==>
      (|r| == Min(PER_SOURCE, |scrape.value|)
       && forall i :: 0 <= i < |r| ==> r[i] == PostArticle(scrape.value[i]))
    ensures Tagged(r, AWS)
  {
    match scrape
    case None => []
    case Some(posts) =>
      var first := FirstThree(posts);
      seq(|first|, i requires 0 <= i < |first| => PostArticle(first[i]))
  }

  // ---------------------------------------------------------------------------
  // fetchNews

  /** What the four browser sessions yield, in the order `fetchNews` runs them. */
  datatype Sites = Sites(hackerNews: Scrape<Link>, devTo: Scrape<Link>, velog: Scrape<Card>, aws: Scrape<Post>)

  /** What `fetchNews` resolves to. */
  function News(sites: Sites): (r: seq<Article>)
    ensures |r| == |HackerNewsArticles(sites.hackerNews)| + |DevToArticles(sites.devTo)|
      + |VelogArticles(sites.velog)| + |FetchAws(sites.aws)|
  {
    HackerNewsArticles(sites.hackerNews) + DevToArticles(sites.devTo)
      + VelogArticles(sites.velog) + FetchAws(sites.aws)
  }

  /** `fetchNews`: the adapters awaited one after another, results spread
      into one list. */
  method FetchNews(sites: Sites) returns (allNews: seq<Article>)
    ensures allNews == News(sites)
  {
    var hackerNews := FetchHackerNews(sites.hackerNews);
    var devTo := FetchDevTo(sites.devTo);
    var velog := FetchVelog(sites.velog);
    var aws := FetchAws(sites.aws);
    allNews := hackerNews + devTo + velog + aws;
  }

  /** `fetchNews` yields at most three articles per adapter, twelve in all. */
  lemma NewsAtMostTwelve(sites: Sites)
    ensures |News(sites)| <= 4 * PER_SOURCE
  {
    VelogArticlesShape(sites.velog);
  }

  /** With every page loaded, at least three matched elements on each and the
      first three Velog cards well formed, `fetchNews` yields twelve articles. */
  lemma FullNews(sites: Sites)
    requires sites.hackerNews.Some? && |sites.hackerNews.value| >= PER_SOURCE
    requires sites.devTo.Some? && |sites.devTo.value| >= PER_SOURCE
    requires sites.velog.Some? && |sites.velog.value| >= PER_SOURCE
    requires forall i :: 0 <= i < PER_SOURCE ==> VelogCard(sites.velog.value[i]).Some?
    requires sites.aws.Some? && |sites.aws.value| >= PER_SOURCE
    ensures |News(sites)| == 4 * PER_SOURCE
  {
    VelogCardsPass(sites.velog.value);
  }

  /** The position of each adapter in `fetchNews`. */
  function SourceRank(source: string): nat
  {
    if source == HACKER_NEWS then 0
    else if source == DEV_TO then 1
    else if source == VELOG then 2
    else 3
  }

  /** Four blocks tagged Hacker News, Dev.to, Velog and AWS, concatenated in
      that order, are sorted by source rank. */
  lemma BlocksInSourceOrder(h: seq<Article>, d: seq<Article>, v: seq<Article>, w: seq<Article>)
    requires Tagged(h, HACKER_NEWS) && Tagged(d, DEV_TO) && Tagged(v, VELOG) && Tagged(w, AWS)
    ensures forall i, j :: 0 <= i < j < |h + d + v + w| ==>
      SourceRank((h + d + v + w)[i].source) <= SourceRank((h + d + v + w)[j].source)
  {
    var news := h + d + v + w;
    forall i | 0 <= i < |news|
      ensures SourceRank(news[i].source) == Block(i, |h|, |d|, |v|)
    {
      if i < |h| {
        assert news[i] == h[i];
      } else if i < |h| + |d| {
        assert news[i] == d[i - |h|];
      } else if i < |h| + |d| + |v| {
        assert news[i] == v[i - |h| - |d|];
      } else {
        assert news[i] == w[i - |h| - |d| - |v|];
      }
    }
  }

  /** The merged list is grouped by source, in the order the adapters run:
      Hacker News, then Dev.to, then Velog, then AWS. */
  lemma NewsInSourceOrder(sites: Sites)
    ensures forall i, j :: 0 <= i < j < |News(sites)| ==>
      SourceRank(News(sites)[i].source) <= SourceRank(News(sites)[j].source)
  {
    VelogArticlesShape(sites.velog);
    BlocksInSourceOrder(HackerNewsArticles(sites.hackerNews), DevToArticles(sites.devTo),
      VelogArticles(sites.velog), FetchAws(sites.aws));
  }

  /** Which of four consecutive blocks of lengths `h`, `d`, `v` and the rest
      position `i` falls in. */
  function Block(i: int, h: nat, d: nat, v: nat): (b: nat)
    ensures b <= 3
  {
    if i < h then 0 else if i < h + d then 1 else if i < h + d + v then 2 else 3
  }

  /** The articles of `news` tagged `source`, in order. */
  function BySource(news: seq<Article>, source: string): seq<Article>
  {
    if news == [] then []
    else (if news[0].source == source then [news[0]] else []) + BySource(news[1..], source)
  }

  lemma {:induction false} BySourceConcat(a: seq<Article>, b: seq<Article>, source: string)
    ensures BySource(a + b, source) == BySource(a, source) + BySource(b, source)
  {
    if a == [] {
      assert a + b == b;
    } else {
      assert (a + b)[0] == a[0];
      assert (a + b)[1..] == a[1..] + b;
      BySourceConcat(a[1..], b, source);
    }
  }

  lemma {:induction false} BySourceUniform(news: seq<Article>, source: string, other: string)
    requires Tagged(news, source)
    ensures BySource(news, source) == news
    ensures other != source ==> BySource(news, other) == []
  {
    if news != [] {
      assert forall a :: a in news[1..] ==> a in news;
      BySourceUniform(news[1..], source, other);
    }
  }

  /** Of four blocks, each tagged with one of the four sources in turn,
      `BySource` picks the block of the requested source. */
  lemma BySourcePicksBlock(h: seq<Article>, d: seq<Article>, v: seq<Article>, w: seq<Article>, source: string)
    requires Tagged(h, HACKER_NEWS) && Tagged(d, DEV_TO) && Tagged(v, VELOG) && Tagged(w, AWS)
    ensures BySource(h + d + v + w, source) ==
      if source == HACKER_NEWS then h
      else if source == DEV_TO then d
      else if source == VELOG then v
      else if source == AWS then w
      else []
  {
    BySourceConcat(h + d + v, w, source);
    BySourceConcat(h + d, v, source);
    BySourceConcat(h, d, source);
    BySourceUniform(h, HACKER_NEWS, source);
    BySourceUniform(d, DEV_TO, source);
    BySourceUniform(v, VELOG, source);
    BySourceUniform(w, AWS, source);
  }

  /** An adapter's articles reach the merged list whole, in order and
      unmixed: the articles `fetchNews` tags with a source are exactly what
      that source's adapter returned, whatever the other three did. */
  lemma NewsBySource(sites: Sites)
    ensures BySource(News(sites), HACKER_NEWS) == HackerNewsArticles(sites.hackerNews)
    ensures BySource(News(sites), DEV_TO) == DevToArticles(sites.devTo)
    ensures BySource(News(sites), VELOG) == VelogArticles(sites.velog)
    ensures BySource(News(sites), AWS) == FetchAws(sites.aws)
  {
    VelogArticlesShape(sites.velog);
    var h := HackerNewsArticles(sites.hackerNews);
    var d := DevToArticles(sites.devTo);
    var v := VelogArticles(sites.velog);
    var w := FetchAws(sites.aws);
    assert News(sites) == h + d + v + w;
    BySourcePicksBlock(h, d, v, w, HACKER_NEWS);
    BySourcePicksBlock(h, d, v, w, DEV_TO);
    BySourcePicksBlock(h, d, v, w, VELOG);
    BySourcePicksBlock(h, d, v, w, AWS);
  }
}
