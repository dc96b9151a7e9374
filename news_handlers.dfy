/** The two IPC handlers the main process registers for the window:
    `get-news` and `translate-news`. */
module NewsHandlers {
  import opened NewsFetcher
  import opened Translator

  /** The language every headline is translated into. */
  const TARGET_LANGUAGE := "ko"

  /** `get-news`: the result of `fetchNews`, unchanged. */
  method GetNews(sites: Sites) returns (news: seq<Article>)
    ensures news == News(sites)
  {
    news := FetchNews(sites);
  }

  /** The loop of `translate-news`: each article's title, in list order, is
      replaced in place by the reply to one translation request, numbered by
      its position; nothing else in the array changes. */
  method TranslateTitles(articles: array<Article>, service: Service)
    modifies articles
    ensures forall i :: 0 <= i < articles.Length ==>
      articles[i] == old(articles[i]).(title := TranslateText(service, i, old(articles[i]).title, TARGET_LANGUAGE))
  {
    var k := 0;
    while k < articles.Length
      invariant 0 <= k <= articles.Length
      invariant forall i :: 0 <= i < k ==>
        articles[i] == old(articles[i]).(title := TranslateText(service, i, old(articles[i]).title, TARGET_LANGUAGE))
      invariant forall i :: k <= i < articles.Length ==> articles[i] == old(articles[i])
    {
      var article := articles[k];
      articles[k] := article.(title := TranslateText(service, k, article.title, TARGET_LANGUAGE));
      k := k + 1;
    }
  }

  /** `translate-news`: the news `fetchNews` yields with every title
      translated, one request per article in list order; url, source, length
      and order are those of the fetched list. */
  method TranslateNews(sites: Sites, service: Service) returns (translated: seq<Article>)
    ensures |translated| == |News(sites)|
    ensures forall i :: 0 <= i < |translated| ==>
      translated[i].url == News(sites)[i].url && translated[i].source == News(sites)[i].source
    ensures forall i :: 0 <= i < |translated| ==>
      translated[i].title == TranslateText(service, i, News(sites)[i].title, TARGET_LANGUAGE)
  {
    var fetched := FetchNews(sites);
    var articles := new Article[|fetched|](i requires 0 <= i < |fetched| => fetched[i]);
    TranslateTitles(articles, service);
    translated := articles[..];
  }
}
