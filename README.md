# Pulse AI news reader — a Dafny model of its core

Pulse AI is a Streamlit news reader. It fetches headlines for a category from three providers
(NewsAPI, GNews and a set of RSS feeds), merges them newest first, caches the merged list per
category in the browser session, shows it ten articles per page, and lets a signed-in user
summarize, save and listen to articles. This project models that core and proves what it
promises:

- `wrappers.dfy` — `Option`.
- `helpers.dfy` — `clean_html`, the lazy regular expression `<.*?>` replaced by nothing, with
  Python's rule that `.` does not match a newline.
- `articles.dfy` — the article record, Python's `<=` on `str` (code-point order), and
  `list.sort(key=published, reverse=True)` as a stable insertion sort.
- `news_fetcher.dfy` — the category tables, the three provider adapters and `fetch_news`.
  HTTP, feedparser, the clock and BeautifulSoup's `get_text` are function parameters.
- `app.dfy` — URL routing, pagination, and the session controller. `st.session_state` and
  `st.query_params` are the two map fields of class `Session`; each click that makes Streamlit
  rerun the script is one method call; `Session.Valid()` is the invariant every method keeps
  (each cache entry is a non-empty fetch whose page is in range, and at most one audio
  language is selected per article).

Three behaviours of the code that the model keeps as written. The program never stores an
empty fetch, so no cache entry has zero pages. A Force Refresh that fetches nothing returns
before touching the cache and keeps the previous entry. GNews is asked for "general" for
"General", which its own category table lacks.

## Model

| member | source | states |
|---|---|---|
| Helpers.CloseIndex | utils/helpers.py:175-176 | a match found for `.*?>` ends on a '>' inside the input |
| Helpers.CloseIndexIsShortestMatch | utils/helpers.py:175-176 | the match ends at the first '>' and only if no newline comes before it (lazy `.*?`, `.` excludes newline) |
| Helpers.NoCloseMeansEveryCloseIsOnALaterLine | utils/helpers.py:175-176 | a '<' starts no tag exactly when every later '>' has a newline before it |
| Helpers.CleanHtml | utils/helpers.py:173-177 | the cleaned text is never longer than the input |
| Helpers.CleanHtmlWithoutAngleIsIdentity | utils/helpers.py:173-177 | text without '<' comes back unchanged |
| Helpers.CleanHtmlIsSubsequence | utils/helpers.py:173-177 | cleaning only deletes characters: the output is a subsequence of the input |
| Helpers.CleanHtmlKeepsNewlines | utils/helpers.py:175-176 | the output has exactly as many newlines as the input |
| Helpers.CleanHtmlCreatesNoClose | utils/helpers.py:176 | deleting tags never gives a leftover '<' a closing '>' on its line |
| Helpers.CleanHtmlLeavesNoTag | utils/helpers.py:173-177 | the output contains no `<...>` span within one line |
| Helpers.CleanHtmlFixesTagFree | utils/helpers.py:173-177 | text with no such span comes back unchanged |
| Helpers.CleanHtmlIdempotent | utils/helpers.py:173-177 | cleaning twice equals cleaning once |
| Articles.StrLe | services/news_fetcher.py:221 | Python's `<=` on `str`: a string is at most any extension of it, and a proper extension is never at most its prefix |
| Articles.StrLeTotal | services/news_fetcher.py:221 | any two `published` strings are comparable |
| Articles.StrLeAntisymmetric | services/news_fetcher.py:221 | strings each at most the other are equal |
| Articles.StrLeTransitive | services/news_fetcher.py:221 | the string order is transitive |
| Articles.WithPublished | services/news_fetcher.py:221 | the items with a given `published` are at most all items |
| Articles.WithPublishedConcat | services/news_fetcher.py:214-221 | selecting by key distributes over concatenation |
| Articles.Insert | services/news_fetcher.py:221 | one insertion step yields one more item, the inserted one among them |
| Articles.SortNewestFirst | services/news_fetcher.py:221 | the sort keeps the number of items |
| Articles.InsertPermutes | services/news_fetcher.py:221 | one insertion step adds exactly the new item |
| Articles.InsertKeepsOrder | services/news_fetcher.py:221 | inserting into a newest-first list keeps it newest first |
| Articles.InsertIsStable | services/news_fetcher.py:221 | the inserted item goes after every earlier item with the same `published` |
| Articles.NoneWithNewerKey | services/news_fetcher.py:221 | a newest-first list has no item newer than its head |
| Articles.SortNewestFirstCorrect | services/news_fetcher.py:221 | the sort is a permutation, newest first, and stable for equal `published` (as Python's sort with `reverse=True`) |
| NewsFetcher.Lookup | services/news_fetcher.py:83 | `dict.get`: absent exactly when no entry has the key; a hit is an entry of the table |
| NewsFetcher.LookupAt | services/news_fetcher.py:83 | a key's first entry is the one found |
| NewsFetcher.LookupSharedPrefix | services/news_fetcher.py:48-67 | tables that share their first entries give the same lookup for any key among them |
| NewsFetcher.NewsApiCategory | services/news_fetcher.py:83 | NewsAPI is always sent one of its own category values |
| NewsFetcher.GNewsCategory | services/news_fetcher.py:125 | GNews is sent either "general" or the value its table lists for that very category |
| NewsFetcher.RssFeedsFor | services/news_fetcher.py:162 | the feeds read are always one of the table's feed lists |
| NewsFetcher.AvailableCategories | services/news_fetcher.py:69-71 | the seven NewsAPI category names in declaration order |
| NewsFetcher.NewsApiFallback | services/news_fetcher.py:48-56 | NewsAPI is asked for "general" exactly for "General" and for names outside the offered categories |
| NewsFetcher.GNewsFallback | services/news_fetcher.py:58-67 | GNews is asked for "general" exactly for names missing from its table, including "General" |
| NewsFetcher.NewsApiAndGNewsAgree | services/news_fetcher.py:48-67 | every offered category other than "General" maps to the same provider category on both APIs |
| NewsFetcher.RssFallback | services/news_fetcher.py:15-45 | each offered category has its own feed list; any other name reads the General feeds |
| NewsFetcher.NewsApiItems | services/news_fetcher.py:73-113 | NewsAPI yields items exactly when a key is configured, the request succeeds, `status` is "ok" and some article is returned; then they are the returned articles, normalised |
| NewsFetcher.GNewsItems | services/news_fetcher.py:115-155 | GNews yields items exactly when a key is configured, the request succeeds and some article is returned, whatever `status` says; then they are the returned articles, normalised |
| NewsFetcher.NormaliseArticles | services/news_fetcher.py:98-108 | one article per record, in order, each field defaulted as the adapters do ("No Title", "#", the clock, "No description available", provider and source name or "Unknown") |
| NewsFetcher.FetchFromNewsApi | services/news_fetcher.py:73-113 | no key, a failed request or a status other than "ok" gives nothing; otherwise every returned record, normalised; every source starts "NewsAPI - " |
| NewsFetcher.FetchFromGNews | services/news_fetcher.py:115-155 | no key or a failed request gives nothing; otherwise every returned record, whatever its `status`; every source starts "GNews - " |
| NewsFetcher.Take | services/news_fetcher.py:190 | `s[:n]` is the prefix of length `min(len(s), n)` |
| NewsFetcher.FromRssEntry | services/news_fetcher.py:175-194 | a feed entry's summary is at most 500 characters and its source starts "RSS - " |
| NewsFetcher.FeedItems | services/news_fetcher.py:169-197 | a feed contributes at most `max_results` items, and nothing when it raises |
| NewsFetcher.CollectFeeds | services/news_fetcher.py:165-198 | when every feed raises, nothing is collected |
| NewsFetcher.CollectFeedsShape | services/news_fetcher.py:165-198 | every item collected from the feeds has a summary of at most 500 characters |
| NewsFetcher.RssItems | services/news_fetcher.py:157-200 | the RSS adapter returns at most `max_results` items, each with a summary of at most 500 characters |
| NewsFetcher.CollectFeedsConcat | services/news_fetcher.py:165-198 | feeds contribute in feed order |
| NewsFetcher.UnreachableFeedIsSkipped | services/news_fetcher.py:196-198 | a feed that raises is skipped without affecting the other feeds' items |
| NewsFetcher.FeedToItems | services/news_fetcher.py:169-197 | one feed's `try` block: its first `max_results` entries converted in order, nothing when the feed raises |
| NewsFetcher.CollectFromUrls | services/news_fetcher.py:165-198 | the loop over feed URLs produces exactly the feeds' contributions in order |
| NewsFetcher.FetchFromRss | services/news_fetcher.py:157-200 | the category's feeds, collected and cut to `max_results`, are exactly the RSS adapter's result |
| NewsFetcher.SortByPublished | services/news_fetcher.py:220-221 | the sort loop produces the stable newest-first order |
| NewsFetcher.FetchNews | services/news_fetcher.py:202-225 | the result is the permutation of all three adapters' items (10, 10 and 20 requested), no cap, newest first, equal dates in concatenation order |
| App.BeforeAt | app.py:41 | `split('@')[0]`: a prefix without '@' that stops at the first '@' |
| App.Username | app.py:41 | "user" for an empty email, otherwise the part of the email before its first '@' |
| App.RoutingParams | app.py:31-42 | the query after routing holds only empty values, under "login", "saved" or the username, and holds the key for the mode given |
| App.ViewModeFromUrl | app.py:44-52 | Saved Articles exactly when "saved" is a key, Login exactly when "login" is and "saved" is not, Latest News otherwise |
| App.RoutingSetsOneKey | app.py:31-42 | routing clears the URL and leaves one empty-valued key for login, saved and latest (the username), none otherwise |
| App.RoutingRoundTrip | app.py:31-52 | reading the URL back gives the mode written, except for a user named "saved" or "login" |
| App.SavedUserIsRoutedToSaved | app.py:41-48 | the user saved@example.com is routed to Saved Articles |
| App.PageCount | app.py:359 | the page count is the ceiling of total / 10, zero only for an empty list |
| App.PageStart | app.py:362 | the items before a page fill exactly that many whole pages |
| App.PageEnd | app.py:363 | the end of the shown slice is the smaller of the list's end and ten past its start |
| App.PageWindow | app.py:358-363 | a page in range shows 1 to 10 items; consecutive pages tile the list and the last ends at its end |
| App.AudioKeyInjective | app.py:420-425 | distinct articles, languages and listings have distinct audio flags |
| App.WriteKeepsInvariants | app.py:299-503 | a write outside the audio flags keeps the session invariant |
| App.SelectAudioKeepsExclusive | app.py:418-425 | choosing one language and clearing the other keeps at most one language per article |
| App.IsUiKey | app.py:23-27 | a key is a UI key exactly when it starts with one of the first five prefixes; `summarizing_saved_` adds nothing |
| App.ClearUi | app.py:21-29 | after the reset exactly the non-UI keys remain, each with its value |
| App.ClearUiDropsEveryFlag | app.py:21-29 | `reset_ui_state` removes every summary, summarizing and audio flag of both listings |
| App.ClearUiKeepsAppKeys | app.py:21-29 | user, theme, category_cache, last_category and last_url_sig are not UI keys, so the reset keeps them |
| App.ClearUiKeepsInvariants | app.py:21-29 | reset keeps the session invariant and the category cache |
| App.Backfilled | app.py:339-345 | each fetched item whose link has a truthy stored summary takes it; nothing else changes |
| App.BackfillSummaries | app.py:339-345 | the back-fill loop produces exactly the back-filled list |
| App.Prompt | app.py:474 | the summarizer's input is the title, then ". ", then the summary |
| App.SummaryFor | app.py:445-450 | a truthy stored summary is used as is; otherwise the summarizer's result for the prompt |
| App.AudioRequests | app.py:427-437 | nothing plays for a hidden article or an empty Latest News summary; at most English then Hindi, each only with its flag on, Hindi only with a truthy translation |
| App.AtMostOneAudio | app.py:427-437 | with the invariant, a rerun requests at most one audio clip per article |
| App.ListenPlaysChosenLanguage | app.py:415-437 | after Listen, exactly the chosen language is requested (Hindi only with a truthy translation) |
| App.Session.ResetUiState | app.py:21-29 | the state becomes the old state without its UI keys; the URL is unchanged |
| App.Session.UpdateUrlRouting | app.py:31-42 | the query becomes exactly the routing parameters; the session state is unchanged |
| App.Session.SelectCategory | app.py:194-199 | the first category is recorded; a change resets the UI flags and records it; no change changes nothing |
| App.Session.ShowLatest | app.py:299-363 | fetch exactly on a miss or Force Refresh; an empty fetch stops with the cache untouched; a non-empty one, back-filled, replaces the entry at page 0; the shown page is the cached entry's and non-empty |
| App.Session.ResetAndTurnTo | app.py:490-492 | the UI flags are cleared and only the category's page changes, to a page in range |
| App.Session.PreviousPage | app.py:487-493 | moves only from a page above 0: resets the UI flags and steps back; otherwise nothing changes |
| App.Session.NextPage | app.py:498-503 | moves only below the last page: resets the UI flags and advances; otherwise nothing changes |
| App.Session.ClickSummarize | app.py:402-412 | accepted only while the summary is hidden and not already summarizing; sets the summarizing flag |
| App.Session.ClickSavedSummarize | app.py:248-257 | accepted on the same condition in Saved Articles; reveals the stored summary |
| App.Session.ProcessSummarize | app.py:467-480 | a truthy stored summary is reused with no summarizer call and no write; otherwise the prompt "title. summary" is summarized and saved; the item's summary is set, shown, and the flag cleared |
| App.Session.Save | app.py:439-462 | unsaved articles only: both writes are always attempted with the item as it stands; only if both succeed is the summary stored in the item and shown |
| App.Session.Listen | app.py:414-425 | accepted only on a shown article (with a summary in Latest News); selects one language and clears the other |

## Left out

- Rendering: page layout, CSS (`load_css`), widget keys, `format_date`, toasts, spinners and the `st.rerun` mechanics are not modelled; each click is one method call.
- Sign-in and navigation (app.py lines 54-182: login page, sidebar, theme toggle, logout, `last_url_sig` handling) are not modelled; only the keys they own are shown to survive `reset_ui_state`.
- Firestore: `get_summary`, `is_bookmarked` and the success of `save_summary`/`save_bookmark` are parameters, and writes are returned as `StoreWrite` values; the Remove button and the Saved Articles list itself are not modelled.
- `_get_hash(link)`: the article key is a parameter `key`; which of two items with the same link a rerun touches first is not modelled.
- The summarizer, translator and speech services are function parameters; `AudioRequests` returns the requests instead of playing audio.
- `App.Session.Save`, `App.Session.ProcessSummarize`: the item to act on is given by category and index rather than found by iterating the visible page.
- `App.BackfillSummaries`, `NewsFetcher.SortByPublished`: Python mutates the list in place; the model builds the new sequence, so aliasing between the fetched list and the cache entry is not modelled.
- `NewsFetcher.FetchNews`: the `except: pass` around the sort is not modelled; with every `published` a string the comparison cannot fail.
- `NewsFetcher.NormaliseArticles`: a key present with a JSON `null` (where `dict.get` returns `None` rather than the default) is not modelled; every raw field is either a string or absent.
- `NewsFetcher.FeedItems`: a feed that raises partway through its entries is modelled as contributing nothing; the entries appended before the exception are not modelled.
- `NewsFetcher.FeedToItems`: the same; a feed either succeeds for all its entries or contributes nothing.
- `NewsFetcher.FetchFromRss`: the same gap, inherited from `FeedToItems`.
- `NewsFetcher.FromRssEntry`: BeautifulSoup's `get_text` is a parameter, so the summary after stripping is bounded only by the 500-character cut.
- The clock (`datetime.now().isoformat()`) is one parameter `now` per fetch, not read per article.
- Network timeouts, HTTP status handling and JSON decoding are folded into the `None` result of the request parameter; logging with `print` is not modelled.
- Configuration loading (`.env`, API keys) is reduced to the two key parameters of `NewsFetcher.Sources`.
