# IT news widget: scraping, merging and translating headlines

This project is a Dafny model of the data path in a small desktop news widget.
Four scrapers each open one site in a headless browser and read at most three
headlines from it: Hacker News, Dev.to, Velog and the AWS blog. `fetchNews` runs
the four scrapers one after another and concatenates what they return. The main
process serves that list to the window over IPC as it is (`get-news`). It can
also rewrite every title through a web translation service first
(`translate-news`).

The browser and the translation service are not modelled. Each is an input:

- A scraper gets what its browser session delivered, as a `Scrape<T>`. This is
  the elements its selector matched, in document order, or `None` when any
  step of its browser session threw: launching, opening a page, navigating,
  evaluating the page script or closing the browser.
- The translation service is a total function `Service`. It maps the number of
  the request, the text and the target language to `Some(translation)`, or to
  `None` when the request or the reading of its reply threw.

Files:

- `wrappers.dfy`: the `Option` type.
- `text.dfy`: JavaScript's `trim` and `startsWith`. The characters `trim`
  removes are ECMAScript's WhiteSpace and LineTerminator characters.
- `news_fetcher.dfy`: the four adapters and `fetchNews`.
  - Hacker News, Dev.to and Velog use a `forEach` loop with an `index < 3`
    guard. They are methods with loops, proved against specification
    functions.
  - AWS uses `slice(0, 3).map(...)`. It is a pure function.
  - `fetchNews` is a method that calls the adapters in turn.
- `translator.dfy`: `translateText`, which returns the original text when the
  request fails.
- `news_handlers.dfy`: the `get-news` and `translate-news` handlers. The
  translation loop rewrites an array of articles in place.

What the proofs make explicit:

- Every adapter returns at most three articles. Article `i` is built from
  matched element `i`.
- Every article carries its adapter's source tag.
- A failed page load turns that adapter's result into `[]` and touches nothing
  else.
- The merged list is the four results in a fixed order. Filtering it by source
  gives back each adapter's result exactly.
- Velog's `"#"` fallback for a card without a second `<a>` is never returned.
  Line 81 dereferences the missing anchor right after line 79. The exception
  empties the whole Velog result. A second anchor without an `href` does the
  same on line 84.
- An AWS post never fails or disappears. It gets `"No Title"` and `"No Link"`
  instead.
- `translate-news` keeps the length, order, URLs and sources of the list. Each
  title is replaced by the reply to its own request, or kept when that request
  fails.

The code runs the four scrapers sequentially and awaits each in turn. It has no
cache, no "fetched today" check, no daily scheduler and no forced-refresh
command. The model follows the code and has none of these either.

## Model

| member | source | states |
|---|---|---|
| `Text.TrimSpec` | newsFetcher.js:15 | `trim` keeps a contiguous part `s[i..j]` of its input, with no trimmable character at either end, and removes only trimmable characters before `i` and from `j` on |
| `Text.TrimIdempotent` | newsFetcher.js:15 | a string without outer whitespace is left unchanged by `trim`, and trimming twice equals trimming once; this holds at every trim site (newsFetcher.js lines 15, 44, 82 and 121) |
| `NewsFetcher.FirstThree` | newsFetcher.js:114-115 | `slice(0, 3)`: the first `min(3, n)` elements, in order |
| `NewsFetcher.LinkArticles` | newsFetcher.js:13-18 | exactly `min(3, n)` articles; article `i` has the trimmed text of matched anchor `i` as title, its `href` as url and the given source tag |
| `NewsFetcher.ExtractLinks` | newsFetcher.js:12-20 | the `forEach` with the `index < 3` guard, which walks all matched anchors and pushes only the first three, yields exactly `LinkArticles` |
| `NewsFetcher.HackerNewsArticles` | newsFetcher.js:3-30 | at most 3 articles, all tagged "Hacker News"; `[]` when the browser session throws |
| `NewsFetcher.FetchHackerNews` | newsFetcher.js:3-30 | `fetchHackerNews` returns `[]` on a failed session and otherwise the articles the loop collects |
| `NewsFetcher.DevToArticles` | newsFetcher.js:32-59 | at most 3 articles, all tagged "Dev.to"; `[]` when the browser session throws |
| `NewsFetcher.FetchDevTo` | newsFetcher.js:32-59 | `fetchDevTo` returns `[]` on a failed session and otherwise the articles the loop collects |
| `NewsFetcher.VelogUrl` | newsFetcher.js:84-86 | the resulting URL always starts with "https"; it equals the `href` exactly when the `href` already starts with "https", and otherwise it is "https://velog.io" followed by the `href`, so the `href` is always a suffix of it |
| `NewsFetcher.VelogCard` | newsFetcher.js:78-88 | one card throws exactly when it has no second `<a>` or that anchor has no `href`, so the `"#"` fallback never reaches a result; otherwise the article is tagged "Velog", its url is the normalised `href` of the second anchor, and its title is the trimmed `<h4>` text or "제목 없음" |
| `NewsFetcher.CollectAllFails` | newsFetcher.js:75-90 | a pass over the cards throws exactly when the body throws on one of them |
| `NewsFetcher.CollectAllSucceeds` | newsFetcher.js:75-90 | a pass that does not throw yields one result per card, each that card's own, in order |
| `NewsFetcher.VelogArticles` | newsFetcher.js:62-101 | what `fetchVelog` resolves to: `[]` on a failed session; the rest of its behaviour is stated by `VelogCardThrows`, `VelogCardsPass` and `VelogArticlesShape` and connected to the loop by `FetchVelog` |
| `NewsFetcher.VelogCardThrows` | newsFetcher.js:78-100 | a card among the first three that throws makes `fetchVelog` return `[]`, whatever the other cards hold |
| `NewsFetcher.VelogCardsPass` | newsFetcher.js:75-91 | when none of the first three cards throws, Velog yields exactly `min(3, n)` articles, article `i` being card `i`'s; cards after the third are never looked at |
| `NewsFetcher.VelogArticlesShape` | newsFetcher.js:84-88 | Velog yields at most 3 articles, each tagged "Velog" and with a URL starting with "https" |
| `NewsFetcher.VisitVelogCard` | newsFetcher.js:78-88 | the imperative body of the Velog loop, including the reassignment of `url`, computes `VelogCard` |
| `NewsFetcher.FetchVelog` | newsFetcher.js:62-101 | `fetchVelog` returns `[]` on a failed session or when one of the first three cards throws, and otherwise the articles of those cards in order |
| `NewsFetcher.FetchAws` | newsFetcher.js:103-136 | at most 3 articles, all tagged "AWS"; `[]` on a failed session; otherwise exactly `min(3, n)` articles, none dropped for a missing element; article `i` is post `i`'s, with "No Title" for a missing `<h2>` and "No Link" for a missing `<a>` |
| `NewsFetcher.News` | newsFetcher.js:139-147 | the length of the merged list is the sum of the four adapters' lengths |
| `NewsFetcher.FetchNews` | newsFetcher.js:139-148 | `fetchNews` awaits the four adapters in turn and returns their concatenation: Hacker News, Dev.to, Velog, AWS |
| `NewsFetcher.NewsAtMostTwelve` | newsFetcher.js:145 | the merged list has at most 12 articles |
| `NewsFetcher.FullNews` | newsFetcher.js:140-145 | with every page loaded, at least three matches on each and the first three Velog cards well formed, the merged list has exactly 12 articles |
| `NewsFetcher.NewsInSourceOrder` | newsFetcher.js:140-145 | the merged list is grouped by source in adapter order: no article of a later adapter comes before one of an earlier adapter |
| `NewsFetcher.NewsBySource` | newsFetcher.js:139-147 | the articles of the merged list that carry a source tag are exactly what that source's adapter returned, in order, whatever the other adapters did, so one adapter's failure never affects another's articles |
| `Translator.TranslateText` | translator.js:3-20 | when the request succeeds the result is exactly the service's reply to it; when the request fails the result is the original text |
| `NewsHandlers.GetNews` | main.js:23-25 | `get-news` returns the result of `fetchNews` unchanged |
| `NewsHandlers.TranslateTitles` | main.js:29-31 | the loop replaces each article's title in place, in list order, by the reply to request number `i` for that title and "ko"; url and source are unchanged |
| `NewsHandlers.TranslateNews` | main.js:27-33 | `translate-news` returns the `fetchNews` list with the same length and order; each url and source is unchanged; each title is `translateText(title, "ko")` made as the `i`-th request, so a failed request leaves its title as it was and the rest of the batch still proceeds |

## Left out

- The puppeteer session is an input, not a model: `launch`, `newPage`, `goto` with `networkidle2`, and `close`. A failure anywhere in it is the `None` scrape. The browser left open when an adapter throws is a resource leak the model does not capture.
- DOM semantics are not modelled: `querySelectorAll`, the `innerText`/`textContent` difference, and `href` resolution by the browser. Each adapter gets the matched elements as data. Which page elements a selector actually matches, for example whether `.title a` on Hacker News also matches the site links, is outside the model.
- The HTTP request in `translateText` and the shape of its reply (`response.data[0][0][0]`) are folded into the `Service` oracle. A reply whose shape yields `undefined` without throwing is not distinguished from a string reply. The model follows the code in putting whatever text the service returns into the title, even an empty one.
- `translate-news` in the source mutates the `title` field of article objects. The model replaces the array element by a copy with the new title. Object identity is not modelled. The articles are fresh objects built by `fetchNews`, so no other reference can see the difference.
- IPC serialisation between the main process and the window, `renderer.js` and `preload.js` are UI plumbing.
- The Electron window options and app lifecycle in `main.js` are not modelled.
- `console` logging is not modelled.
