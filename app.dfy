/** app.py: URL routing, pagination and the rerun-by-rerun controller. `st.session_state` is a
    map from string keys to values and `st.query_params` a map from string keys to strings;
    each rerun caused by a click is one method call on `Session`. Firestore lookups and
    writes, the summarizer, the translator and the speech service are parameters or are
    returned as requests. */
module App {
  import opened Wrappers
  import opened Articles

  // ---------------------------------------------------------------------------
  // URL routing: update_url_routing and get_view_mode_from_url
  // ---------------------------------------------------------------------------

  /** `s.split('@')[0]`: everything before the first '@'. */
  function BeforeAt(s: string): (r: string)
    ensures r <= s && '@' !in r
    ensures |r| < |s| ==> s[|r|] == '@'
  {
    if s == [] || s[0] == '@' then [] else [s[0]] + BeforeAt(s[1..])
  }

  /** The query key `update_url_routing('latest', email)` sets: `"user"` when the email is empty. */
  function Username(email: string): (r: string)
    ensures email == "" ==> r == "user"
    ensures email != "" ==> r <= email && '@' !in r && (|r| < |email| ==> email[|r|] == '@')
  {
    if email == "" then "user" else BeforeAt(email)
  }

  /** The query parameters after `update_url_routing(mode, email)`: cleared, then one key. */
  function RoutingParams(mode: string, email: string): (r: map<string, string>)
    ensures forall k :: k in r ==> r[k] == ""
    ensures forall k :: k in r ==> k == "login" || k == "saved" || k == Username(email)
    ensures mode == "login" ==> "login" in r
    ensures mode == "saved" ==> "saved" in r
    ensures mode == "latest" ==> Username(email) in r
  {
    if mode == "login" then map["login" := ""]
    else if mode == "saved" then map["saved" := ""]
    else if mode == "latest" then map[Username(email) := ""]
    else map[]
  }

  datatype ViewMode = LatestNews | SavedArticles | Login

  /** `get_view_mode_from_url`: "saved" wins over "login"; anything else is Latest News. */
  function ViewModeFromUrl(keys: set<string>): (v: ViewMode)
    ensures v == SavedArticles <==> "saved" in keys
    ensures v == Login <==> "login" in keys && "saved" !in keys
    ensures v == LatestNews <==> "login" !in keys && "saved" !in keys
  {
    if "saved" in keys then SavedArticles
    else if "login" in keys then Login
    else LatestNews
  }

  /** Routing leaves exactly one key, with an empty value, for the three known modes and no key
      for any other mode; for `latest` that key is the part of the email before its first '@'. */
  lemma RoutingSetsOneKey(mode: string, email: string)
    ensures mode == "login" || mode == "saved" || mode == "latest" ==>
      |RoutingParams(mode, email).Keys| == 1
    ensures mode != "login" && mode != "saved" && mode != "latest" ==> RoutingParams(mode, email) == map[]
    ensures mode == "latest" ==> RoutingParams(mode, email).Keys == {Username(email)}
  {
    if mode == "latest" {
      assert RoutingParams(mode, email).Keys == {Username(email)};
    } else if mode == "login" {
      assert RoutingParams(mode, email).Keys == {"login"};
    } else if mode == "saved" {
      assert RoutingParams(mode, email).Keys == {"saved"};
    }
  }

  /** Reading the URL back gives the mode that wrote it, except for a user whose name is
      itself "saved" or "login". */
  lemma RoutingRoundTrip(mode: string, email: string)
    ensures mode == "login" ==> ViewModeFromUrl(RoutingParams(mode, email).Keys) == Login
    ensures mode == "saved" ==> ViewModeFromUrl(RoutingParams(mode, email).Keys) == SavedArticles
    ensures mode == "latest" ==>
      (ViewModeFromUrl(RoutingParams(mode, email).Keys) == LatestNews <==>
       Username(email) != "saved" && Username(email) != "login")
    ensures mode != "login" && mode != "saved" && mode != "latest" ==>
      ViewModeFromUrl(RoutingParams(mode, email).Keys) == LatestNews
  {
    RoutingSetsOneKey(mode, email);
  }

  /** The exception, concretely: the user saved@example.com is routed to Saved Articles. */
  lemma SavedUserIsRoutedToSaved()
    ensures ViewModeFromUrl(RoutingParams("latest", "saved@example.com").Keys) == SavedArticles
  {
    var email := "saved@example.com";
    assert email[5] == '@';
    assert BeforeAt(email[5..]) == [];
    assert BeforeAt(email) == "saved" by {
      assert email[..5] == "saved";
      BeforeAtStops(email, 5);
    }
  }

  lemma {:induction false} BeforeAtStops(s: string, n: nat)
    requires n < |s| && s[n] == '@' && '@' !in s[..n]
    ensures BeforeAt(s) == s[..n]
  {
    if n > 0 {
      assert s[1..][n - 1] == '@';
      assert s[1..][..n - 1] == s[..n][1..];
      BeforeAtStops(s[1..], n - 1);
    }
  }

  // ---------------------------------------------------------------------------
  // Pagination
  // ---------------------------------------------------------------------------

  const PageSize: nat := 10

  /** `num_pages = (total + items_per_page - 1) // items_per_page`: the ceiling of
      `total / PageSize`, zero exactly for an empty list. */
  function PageCount(total: nat): (r: nat)
    ensures r * PageSize >= total
    ensures total > 0 ==> (r - 1) * PageSize < total
    ensures r == 0 <==> total == 0
  {
    (total + PageSize - 1) / PageSize
  }

  /** `start_idx`: the items before page `page` fill exactly `page` whole pages. */
  function PageStart(page: nat): (r: nat)
    ensures PageCount(r) == page && r % PageSize == 0
  {
    page * PageSize
  }

  /** `end_idx = min(start_idx + items_per_page, total)`. */
  function PageEnd(page: nat, total: nat): (r: nat)
    ensures r <= total && r <= PageStart(page) + PageSize
    ensures r == total || r == PageStart(page) + PageSize
  {
    if PageStart(page) + PageSize < total then PageStart(page) + PageSize else total
  }

  /** Every page in range shows between one and `PageSize` items, the pages tile the list with
      no gap or overlap, and the last one ends at the end of the list. */
  lemma PageWindow(page: nat, total: nat)
    requires page < PageCount(total)
    ensures PageStart(page) < PageEnd(page, total) <= total
    ensures PageEnd(page, total) - PageStart(page) <= PageSize
    ensures page + 1 < PageCount(total) ==> PageEnd(page, total) == PageStart(page + 1)
    ensures page + 1 == PageCount(total) ==> PageEnd(page, total) == total
  {
    assert page * PageSize < total by {
      assert page <= PageCount(total) - 1;
      assert page * PageSize <= (PageCount(total) - 1) * PageSize;
    }
    if page + 1 < PageCount(total) {
      assert (page + 1) * PageSize <= (PageCount(total) - 1) * PageSize;
    }
  }

  // ---------------------------------------------------------------------------
  // Session state
  // ---------------------------------------------------------------------------

  /** `category_cache[category]`: the merged items and the current page. */
  datatype CacheEntry = CacheEntry(items: seq<Article>, page: nat)

  /** Values held in `st.session_state`; `Record` is anything the model does not look into
      (the `user` dict). */
  datatype Value = Flag(on: bool) | Text(text: string) | Cache(entries: map<string, CacheEntry>) | Record

  const CacheKey: string := "category_cache"
  const LastCategoryKey: string := "last_category"

  /** The two article lists with per-article flags: Latest News and Saved Articles. */
  datatype Listing = Latest | Saved

  datatype Lang = En | Hi {
    function Other(): Lang {
      if this == En then Hi else En
    }
  }

  function ShowKey(listing: Listing, key: string): string {
    (if listing == Latest then "show_summary_" else "show_saved_summary_") + key
  }

  function SummarizingKey(listing: Listing, key: string): string {
    (if listing == Latest then "summarizing_" else "summarizing_saved_") + key
  }

  function AudioPrefix(listing: Listing, lang: Lang): string {
    match (listing, lang)
    case (Latest, En) => "audio_en_"
    case (Latest, Hi) => "audio_hi_"
    case (Saved, En) => "saved_audio_en_"
    case (Saved, Hi) => "saved_audio_hi_"
  }

  function AudioKey(listing: Listing, lang: Lang, key: string): string {
    AudioPrefix(listing, lang) + key
  }

  /** `st.session_state.get(k, False)` is truthy. */
  predicate FlagOn(m: map<string, Value>, k: string) {
    k in m && m[k] == Flag(true)
  }

  const UiPrefixes: seq<string> := [
    "show_summary_", "show_saved_summary_", "audio_", "saved_audio_", "summarizing_",
    "summarizing_saved_"]

  /** `k.startswith(("show_summary_", ...))`. The last prefix adds nothing: every key starting
      with `summarizing_saved_` also starts with `summarizing_`. */
  function IsUiKey(k: string): (r: bool)
    ensures r <==> exists i :: 0 <= i < 5 && UiPrefixes[i] <= k
  {
    assert UiPrefixes[5] <= k ==> UiPrefixes[4] <= k by {
      if UiPrefixes[5] <= k {
        assert k[..|UiPrefixes[4]|] == UiPrefixes[5][..|UiPrefixes[4]|];
      }
    }
    exists i :: 0 <= i < |UiPrefixes| && UiPrefixes[i] <= k
  }

  /** The session after `reset_ui_state`: exactly the keys outside the UI families remain,
      each with its value. */
  function ClearUi(m: map<string, Value>): (r: map<string, Value>)
    ensures forall k :: k in r <==> k in m && !IsUiKey(k)
    ensures forall k :: k in r ==> r[k] == m[k]
  {
    map k | k in m && !IsUiKey(k) :: m[k]
  }

  /** The stored category cache, empty before the first visit to Latest News. */
  function Cached(m: map<string, Value>): map<string, CacheEntry> {
    if CacheKey in m && m[CacheKey].Cache? then m[CacheKey].entries else map[]
  }

  /** A stored entry was a non-empty fetch, and its page is one of its pages. */
  predicate EntryValid(e: CacheEntry) {
    |e.items| > 0 && e.page < PageCount(|e.items|)
  }

  ghost predicate CacheConsistent(m: map<string, Value>) {
    (CacheKey in m ==> m[CacheKey].Cache?) &&
    forall c :: c in Cached(m) ==> EntryValid(Cached(m)[c])
  }

  /** At most one audio language is selected per article, in either listing. */
  ghost predicate AudioExclusive(m: map<string, Value>) {
    forall listing, key :: !(FlagOn(m, AudioKey(listing, En, key)) && FlagOn(m, AudioKey(listing, Hi, key)))
  }

  // --- facts about the key families ---

  lemma PrefixOfConcat(p: string, q: string)
    ensures p <= p + q
  {
    assert (p + q)[..|p|] == p;
  }

  lemma NotPrefixAt(p: string, s: string, i: nat)
    requires i < |p| && i < |s| && p[i] != s[i]
    ensures !(p <= s)
  {
  }

  /** Keys of the audio family are the ones `AudioExclusive` talks about. */
  predicate IsAudioKey(k: string) {
    "audio_" <= k || "saved_audio_" <= k
  }

  lemma AudioKeyIsAudio(listing: Listing, lang: Lang, key: string)
    ensures IsAudioKey(AudioKey(listing, lang, key))
  {
    var p := AudioPrefix(listing, lang);
    PrefixOfConcat(p, key);
    if listing == Latest {
      PrefixOfConcat("audio_", p[6..]);
      assert p == "audio_" + p[6..];
    } else {
      PrefixOfConcat("saved_audio_", p[12..]);
      assert p == "saved_audio_" + p[12..];
    }
  }

  lemma {:induction false} AudioKeyInjective(l1: Listing, g1: Lang, k1: string, l2: Listing, g2: Lang, k2: string)
    requires AudioKey(l1, g1, k1) == AudioKey(l2, g2, k2)
    ensures l1 == l2 && g1 == g2 && k1 == k2
  {
    var s := AudioKey(l1, g1, k1);
    var p1, p2 := AudioPrefix(l1, g1), AudioPrefix(l2, g2);
    assert s[0] == p1[0] == p2[0];
    assert l1 == l2;
    if l1 == Latest {
      assert s[6] == p1[6] == p2[6];
    } else {
      assert s[12] == p1[12] == p2[12];
    }
    assert p1 == p2;
    assert k1 == s[|p1|..] == k2;
  }

  lemma FlagKeysAreNotAudio(listing: Listing, key: string)
    ensures !IsAudioKey(ShowKey(listing, key)) && ShowKey(listing, key) != CacheKey
    ensures !IsAudioKey(SummarizingKey(listing, key)) && SummarizingKey(listing, key) != CacheKey
  {
    var s, z := ShowKey(listing, key), SummarizingKey(listing, key);
    assert s[0] == 's' && s[1] == 'h' && z[0] == 's' && z[1] == 'u';
    NotPrefixAt("audio_", s, 0);
    NotPrefixAt("saved_audio_", s, 1);
    NotPrefixAt("audio_", z, 0);
    NotPrefixAt("saved_audio_", z, 1);
    assert CacheKey[0] == 'c';
  }

  lemma AppKeysAreNotAudio()
    ensures !IsAudioKey(CacheKey) && !IsAudioKey(LastCategoryKey)
  {
    NotPrefixAt("audio_", CacheKey, 0);
    NotPrefixAt("saved_audio_", CacheKey, 0);
    NotPrefixAt("audio_", LastCategoryKey, 0);
    NotPrefixAt("saved_audio_", LastCategoryKey, 0);
  }

  /** Writing a key outside the audio family keeps audio exclusivity. */
  lemma WriteKeepsAudioExclusive(m: map<string, Value>, k: string, v: Value)
    requires AudioExclusive(m) && !IsAudioKey(k)
    ensures AudioExclusive(m[k := v])
  {
    forall listing, key ensures !(FlagOn(m[k := v], AudioKey(listing, En, key)) && FlagOn(m[k := v], AudioKey(listing, Hi, key))) {
      AudioKeyIsAudio(listing, En, key);
      AudioKeyIsAudio(listing, Hi, key);
    }
  }

  /** A write outside the audio family keeps both invariants: any key but the cache's leaves
      the cache alone, and the cache key may only receive a cache of valid entries. */
  lemma WriteKeepsInvariants(m: map<string, Value>, k: string, v: Value)
    requires CacheConsistent(m) && AudioExclusive(m) && !IsAudioKey(k)
    requires k == CacheKey ==> v.Cache? && forall c :: c in v.entries ==> EntryValid(v.entries[c])
    ensures CacheConsistent(m[k := v]) && AudioExclusive(m[k := v])
    ensures Cached(m[k := v]) == if k == CacheKey then v.entries else Cached(m)
  {
    WriteKeepsAudioExclusive(m, k, v);
    if k == CacheKey {
      assert Cached(m[k := v]) == v.entries;
    } else {
      assert Cached(m[k := v]) == Cached(m);
    }
  }

  /** The two audio flags of one article are different keys. */
  lemma AudioKeysDiffer(listing: Listing, lang: Lang, key: string)
    ensures AudioKey(listing, lang, key) != AudioKey(listing, lang.Other(), key)
  {
    var s1, s2 := AudioKey(listing, lang, key), AudioKey(listing, lang.Other(), key);
    if listing == Latest {
      assert s1[6] != s2[6];
    } else {
      assert s1[12] != s2[12];
    }
  }

  /** Selecting language `lang` for one article (and clearing the other) keeps exclusivity. */
  lemma SelectAudioKeepsExclusive(m: map<string, Value>, listing: Listing, lang: Lang, key: string)
    requires AudioExclusive(m)
    ensures AudioExclusive(m[AudioKey(listing, lang, key) := Flag(true)][AudioKey(listing, lang.Other(), key) := Flag(false)])
  {
    var m' := m[AudioKey(listing, lang, key) := Flag(true)][AudioKey(listing, lang.Other(), key) := Flag(false)];
    forall l, k ensures !(FlagOn(m', AudioKey(l, En, k)) && FlagOn(m', AudioKey(l, Hi, k))) {
      if l == listing && k == key {
        assert lang.Other() == En || lang.Other() == Hi;
      } else {
        if AudioKey(l, En, k) == AudioKey(listing, lang, key) || AudioKey(l, En, k) == AudioKey(listing, lang.Other(), key) {
          AudioKeyInjective(l, En, k, listing, if AudioKey(l, En, k) == AudioKey(listing, lang, key) then lang else lang.Other(), key);
        }
        if AudioKey(l, Hi, k) == AudioKey(listing, lang, key) || AudioKey(l, Hi, k) == AudioKey(listing, lang.Other(), key) {
          AudioKeyInjective(l, Hi, k, listing, if AudioKey(l, Hi, k) == AudioKey(listing, lang, key) then lang else lang.Other(), key);
        }
      }
    }
  }

  /** `reset_ui_state` removes every summary, summarizing and audio flag of both listings. */
  lemma ClearUiDropsEveryFlag(m: map<string, Value>, listing: Listing, lang: Lang, key: string)
    ensures ShowKey(listing, key) !in ClearUi(m)
    ensures SummarizingKey(listing, key) !in ClearUi(m)
    ensures AudioKey(listing, lang, key) !in ClearUi(m)
  {
    var show := if listing == Latest then 0 else 1;
    var summarizing := if listing == Latest then 4 else 5;
    PrefixOfConcat(UiPrefixes[show], key);
    PrefixOfConcat(UiPrefixes[summarizing], key);
    AudioKeyIsAudio(listing, lang, key);
    assert UiPrefixes[2] == "audio_" && UiPrefixes[3] == "saved_audio_";
  }

  /** `reset_ui_state` keeps every other key, in particular `user`, `theme`, `category_cache`,
      `last_category` and `last_url_sig`. */
  lemma ClearUiKeepsAppKeys()
    ensures !IsUiKey("user") && !IsUiKey("theme") && !IsUiKey(CacheKey)
    ensures !IsUiKey(LastCategoryKey) && !IsUiKey("last_url_sig")
  {
    forall k | k in ["user", "theme", CacheKey, LastCategoryKey, "last_url_sig"] ensures !IsUiKey(k) {
      assert k[0] != 's' && k[0] != 'a';
      forall i | 0 <= i < |UiPrefixes| ensures !(UiPrefixes[i] <= k) {
        assert UiPrefixes[i][0] == 's' || UiPrefixes[i][0] == 'a';
        NotPrefixAt(UiPrefixes[i], k, 0);
      }
    }
  }

  lemma ClearUiKeepsInvariants(m: map<string, Value>)
    requires CacheConsistent(m) && AudioExclusive(m)
    ensures CacheConsistent(ClearUi(m)) && AudioExclusive(ClearUi(m))
    ensures Cached(ClearUi(m)) == Cached(m)
  {
    ClearUiKeepsAppKeys();
    assert CacheKey in ClearUi(m) <==> CacheKey in m;
    assert Cached(ClearUi(m)) == Cached(m);
    forall listing, key ensures !FlagOn(ClearUi(m), AudioKey(listing, En, key)) {
      ClearUiDropsEveryFlag(m, listing, En, key);
    }
  }

  // --- back-fill of stored summaries ---

  /** `if existing_summary:` — a stored summary that is present and non-empty. */
  predicate Truthy(s: Option<string>) {
    s.Some? && s.value != ""
  }

  function BackfillOne(item: Article, stored: Option<string>): Article {
    if Truthy(stored) then item.(summary := stored.value) else item
  }

  /** The list after the back-fill loop: each item whose link has a truthy stored summary gets
      it as its summary; nothing else about any item changes. `stored` is
      `get_summary(link, user_id)`. */
  function Backfilled(items: seq<Article>, stored: string -> Option<string>): (r: seq<Article>)
    ensures |r| == |items|
    ensures forall i :: 0 <= i < |r| ==> r[i] == items[i].(summary := r[i].summary)
    ensures forall i :: 0 <= i < |r| ==>
      r[i].summary == (if Truthy(stored(items[i].link)) then stored(items[i].link).value else items[i].summary)
  {
    seq(|items|, i requires 0 <= i < |items| => BackfillOne(items[i], stored(items[i].link)))
  }

  /** The back-fill loop, item by item. */
  method BackfillSummaries(items: seq<Article>, stored: string -> Option<string>) returns (r: seq<Article>)
    ensures r == Backfilled(items, stored)
  {
    r := items;
    var i := 0;
    while i < |r|
      invariant 0 <= i <= |r| == |items|
      invariant forall j :: 0 <= j < i ==> r[j] == BackfillOne(items[j], stored(items[j].link))
      invariant forall j :: i <= j < |r| ==> r[j] == items[j]
    {
      var existing := stored(r[i].link);
      if Truthy(existing) {
        r := r[i := r[i].(summary := existing.value)];
      }
      i := i + 1;
    }
  }

  // --- the shown page ---

  /** What the Latest News view shows: the whole list, the page, the page count and the slice
      `[first, last)` rendered. */
  datatype PageView = PageView(items: seq<Article>, page: nat, pageCount: nat, first: nat, last: nat)

  function ViewOf(e: CacheEntry): PageView {
    PageView(e.items, e.page, PageCount(|e.items|), PageStart(e.page), PageEnd(e.page, |e.items|))
  }

  /** `item['summary'] = s` on the item at `index` of a cached category. */
  function WithSummary(cache: map<string, CacheEntry>, category: string, index: nat, s: string): map<string, CacheEntry>
    requires category in cache && index < |cache[category].items|
  {
    var e := cache[category];
    cache[category := e.(items := e.items[index := e.items[index].(summary := s)])]
  }

  /** The text sent to the summarizer: `f"{title}. {summary}"`. */
  function Prompt(item: Article): (r: string)
    ensures |r| == |item.title| + 2 + |item.summary|
    ensures r[..|item.title|] == item.title && r[|item.title|..|item.title| + 2] == ". "
    ensures r[|item.title| + 2..] == item.summary
  {
    item.title + ". " + item.summary
  }

  /** The stored summary when truthy, otherwise a fresh one from the summarizer. */
  function SummaryFor(item: Article, stored: Option<string>, summarize: string -> string): (r: string)
    ensures Truthy(stored) ==> r == stored.value && r != ""
    ensures !Truthy(stored) ==> r == summarize(Prompt(item))
  {
    if Truthy(stored) then stored.value else summarize(Prompt(item))
  }

  /** A Firestore write the controller attempts. */
  datatype StoreWrite = SaveSummary(article: Article, summary: string, category: string) | SaveBookmark(article: Article)

  /** A speech-synthesis request: the text and the gTTS language code. */
  datatype SpeechRequest = Speech(text: string, lang: string)

  /** The audio requested for one article during a rerun: English from the summary, Hindi from
      its translation when that is truthy; only shown articles (with a summary, in Latest News)
      play anything. */
  function AudioRequests(m: map<string, Value>, listing: Listing, key: string, summary: string,
                         translate: string -> string): (r: seq<SpeechRequest>)
    ensures !FlagOn(m, ShowKey(listing, key)) || (listing == Latest && summary == "") ==> r == []
    ensures |r| <= 2 && (|r| == 2 ==> r[0].lang == "en" && r[1].lang == "hi")
    ensures forall i :: 0 <= i < |r| ==>
      || (r[i] == Speech(summary, "en") && FlagOn(m, AudioKey(listing, En, key)))
      || (r[i] == Speech(translate(summary), "hi") && FlagOn(m, AudioKey(listing, Hi, key)) && translate(summary) != "")
  {
    if !FlagOn(m, ShowKey(listing, key)) || (listing == Latest && summary == "") then []
    else
      (if FlagOn(m, AudioKey(listing, En, key)) then [Speech(summary, "en")] else [])
      + (if FlagOn(m, AudioKey(listing, Hi, key)) && translate(summary) != ""
         then [Speech(translate(summary), "hi")] else [])
  }

  /** With the flags exclusive, a rerun requests at most one audio clip per article. */
  lemma AtMostOneAudio(m: map<string, Value>, listing: Listing, key: string, summary: string,
                       translate: string -> string)
    requires AudioExclusive(m)
    ensures |AudioRequests(m, listing, key, summary, translate)| <= 1
  {
    assert !(FlagOn(m, AudioKey(listing, En, key)) && FlagOn(m, AudioKey(listing, Hi, key)));
  }

  /** After a Listen click on a shown article, exactly the chosen language is requested (Hindi
      only when its translation is truthy). */
  lemma ListenPlaysChosenLanguage(m: map<string, Value>, listing: Listing, lang: Lang, key: string,
                                  summary: string, translate: string -> string)
    requires FlagOn(m, ShowKey(listing, key)) && (listing == Saved || summary != "")
    ensures var m' := m[AudioKey(listing, lang, key) := Flag(true)][AudioKey(listing, lang.Other(), key) := Flag(false)];
      AudioRequests(m', listing, key, summary, translate) ==
        if lang == En then [Speech(summary, "en")]
        else if translate(summary) != "" then [Speech(translate(summary), "hi")]
        else []
  {
    FlagKeysAreNotAudio(listing, key);
    AudioKeyIsAudio(listing, lang, key);
    AudioKeyIsAudio(listing, lang.Other(), key);
    AudioKeysDiffer(listing, lang, key);
    var m' := m[AudioKey(listing, lang, key) := Flag(true)][AudioKey(listing, lang.Other(), key) := Flag(false)];
    assert FlagOn(m', ShowKey(listing, key));
    if lang == En {
      assert FlagOn(m', AudioKey(listing, En, key)) && !FlagOn(m', AudioKey(listing, Hi, key));
    } else {
      assert !FlagOn(m', AudioKey(listing, En, key)) && FlagOn(m', AudioKey(listing, Hi, key));
    }
  }

  // ---------------------------------------------------------------------------
  // The controller
  // ---------------------------------------------------------------------------

  class Session {
    var state: map<string, Value>
    var query: map<string, string>

    ghost predicate Valid()
      reads this
    {
      CacheConsistent(state) && AudioExclusive(state)
    }

    /** A fresh browser session arriving at `url`'s query parameters. */
    constructor (url: map<string, string>)
      ensures Valid() && state == map[] && query == url
    {
      state := map[];
      query := url;
    }

    /** `reset_ui_state`: collect the UI keys, then delete them one by one. */
    method ResetUiState()
      requires Valid()
      modifies this
      ensures Valid() && state == ClearUi(old(state)) && query == old(query)
    {
      var toClear := set k | k in state && IsUiKey(k);
      ghost var all := toClear;
      while toClear != {}
        invariant toClear <= all
        invariant state == old(state) - (all - toClear)
        invariant query == old(query)
        decreases toClear
      {
        var k :| k in toClear;
        state := state - {k};
        toClear := toClear - {k};
      }
      assert state == ClearUi(old(state));
      ClearUiKeepsInvariants(old(state));
    }

    /** `update_url_routing(mode, user_email)`. */
    method UpdateUrlRouting(mode: string, email: string)
      requires Valid()
      modifies this
      ensures Valid() && query == RoutingParams(mode, email) && state == old(state)
    {
      query := map[];
      if mode == "login" {
        query := query["login" := ""];
      } else if mode == "saved" {
        query := query["saved" := ""];
      } else if mode == "latest" {
        var username := if email != "" then BeforeAt(email) else "user";
        query := query[username := ""];
      }
    }

    /** The category selector (`last_category`): a change of category resets the UI flags. */
    method SelectCategory(category: string)
      requires Valid()
      modifies this
      ensures Valid() && query == old(query)
      ensures LastCategoryKey !in old(state) ==> state == old(state)[LastCategoryKey := Text(category)]
      ensures LastCategoryKey in old(state) && old(state)[LastCategoryKey] == Text(category) ==>
        state == old(state)
      ensures LastCategoryKey in old(state) && old(state)[LastCategoryKey] != Text(category) ==>
        state == ClearUi(old(state))[LastCategoryKey := Text(category)]
    {
      AppKeysAreNotAudio();
      if LastCategoryKey !in state {
        WriteKeepsInvariants(state, LastCategoryKey, Text(category));
        state := state[LastCategoryKey := Text(category)];
      }
      if state[LastCategoryKey] != Text(category) {
        ghost var before := state;
        ResetUiState();
        ClearUiKeepsAppKeys();
        WriteKeepsInvariants(state, LastCategoryKey, Text(category));
        state := state[LastCategoryKey := Text(category)];
      }
    }

    /** The Latest News rerun up to the page slice: fetch on a miss or on Force Refresh; an empty
        fetch stops the rerun before the cache is touched; a non-empty one, back-filled with
        stored summaries, replaces the entry wholesale at page 0; a hit reuses items and page.
        `live` is what `fetch_news(category)` returns when it is called. */
    method ShowLatest(category: string, forceRefresh: bool, live: seq<Article>,
                      stored: string -> Option<string>)
      returns (shown: Option<PageView>)
      requires Valid()
      modifies this
      ensures Valid() && query == old(query)
      ensures var before := Cached(old(state));
        var fetch := category !in before || forceRefresh;
        var base := if CacheKey in old(state) then old(state) else old(state)[CacheKey := Cache(map[])];
        && (shown.None? <==> fetch && live == [])
        && (fetch && live == [] ==> state == base)
        && (fetch && live != [] ==>
              state == old(state)[CacheKey := Cache(before[category := CacheEntry(Backfilled(live, stored), 0)])])
        && (!fetch ==> state == base)
      ensures shown.Some? ==> category in Cached(state) && shown.value == ViewOf(Cached(state)[category])
      ensures shown.Some? ==> shown.value.first < shown.value.last <= |shown.value.items|
    {
      AppKeysAreNotAudio();
      if CacheKey !in state {
        WriteKeepsInvariants(state, CacheKey, Cache(map[]));
        state := state[CacheKey := Cache(map[])];
      }
      var cache := state[CacheKey].entries;
      var shouldFetch := category !in cache;
      if forceRefresh {
        shouldFetch := true;
      }
      if shouldFetch {
        if live == [] {
          return None;
        }
        var items := BackfillSummaries(live, stored);
        assert EntryValid(CacheEntry(items, 0));
        assert cache == Cached(state);
        WriteKeepsInvariants(state, CacheKey, Cache(cache[category := CacheEntry(items, 0)]));
        state := state[CacheKey := Cache(cache[category := CacheEntry(items, 0)])];
      }
      assert category in Cached(state);
      var entry := state[CacheKey].entries[category];
      assert EntryValid(entry);
      PageWindow(entry.page, |entry.items|);
      shown := Some(ViewOf(entry));
    }

    /** `reset_ui_state()` followed by moving the category's page cursor to `page`. */
    method ResetAndTurnTo(category: string, page: nat)
      requires Valid() && category in Cached(state) && page < PageCount(|Cached(state)[category].items|)
      modifies this
      ensures Valid() && query == old(query)
      ensures state == ClearUi(old(state))[CacheKey := Cache(Cached(old(state))[category := Cached(old(state))[category].(page := page)])]
    {
      ghost var before := state;
      ResetUiState();
      ClearUiKeepsAppKeys();
      ClearUiKeepsInvariants(before);
      var cache := state[CacheKey].entries;
      var turned := cache[category := cache[category].(page := page)];
      AppKeysAreNotAudio();
      WriteKeepsInvariants(state, CacheKey, Cache(turned));
      state := state[CacheKey := Cache(turned)];
    }

    /** Previous Page: shown only when `page > 0`; resets the UI flags, then steps back. */
    method PreviousPage(category: string) returns (moved: bool)
      requires Valid() && category in Cached(state)
      modifies this
      ensures Valid() && query == old(query)
      ensures var e := Cached(old(state))[category];
        && moved == (e.page > 0)
        && (moved ==> state == ClearUi(old(state))[CacheKey := Cache(Cached(old(state))[category := e.(page := e.page - 1)])])
        && (!moved ==> state == old(state))
    {
      var page := state[CacheKey].entries[category].page;
      moved := page > 0;
      if moved {
        ResetAndTurnTo(category, page - 1);
      }
    }

    /** Next Page: shown only when `page < num_pages - 1`; resets the UI flags, then advances. */
    method NextPage(category: string) returns (moved: bool)
      requires Valid() && category in Cached(state)
      modifies this
      ensures Valid() && query == old(query)
      ensures var e := Cached(old(state))[category];
        && moved == (e.page + 1 < PageCount(|e.items|))
        && (moved ==> state == ClearUi(old(state))[CacheKey := Cache(Cached(old(state))[category := e.(page := e.page + 1)])])
        && (!moved ==> state == old(state))
    {
      var e := state[CacheKey].entries[category];
      moved := e.page + 1 < PageCount(|e.items|);
      if moved {
        ResetAndTurnTo(category, e.page + 1);
      }
    }

    /** Summarize (Latest News): shown while the summary is hidden, disabled while summarizing;
        a click sets `summarizing_<key>`. */
    method ClickSummarize(key: string) returns (accepted: bool)
      requires Valid()
      modifies this
      ensures Valid() && query == old(query)
      ensures accepted == (!FlagOn(old(state), ShowKey(Latest, key)) && !FlagOn(old(state), SummarizingKey(Latest, key)))
      ensures accepted ==> state == old(state)[SummarizingKey(Latest, key) := Flag(true)]
      ensures !accepted ==> state == old(state)
    {
      accepted := !FlagOn(state, ShowKey(Latest, key)) && !FlagOn(state, SummarizingKey(Latest, key));
      if accepted {
        FlagKeysAreNotAudio(Latest, key);
        WriteKeepsInvariants(state, SummarizingKey(Latest, key), Flag(true));
        state := state[SummarizingKey(Latest, key) := Flag(true)];
      }
    }

    /** Summarize (Saved Articles): the click only reveals the stored summary. */
    method ClickSavedSummarize(key: string) returns (accepted: bool)
      requires Valid()
      modifies this
      ensures Valid() && query == old(query)
      ensures accepted == (!FlagOn(old(state), ShowKey(Saved, key)) && !FlagOn(old(state), SummarizingKey(Saved, key)))
      ensures accepted ==> state == old(state)[ShowKey(Saved, key) := Flag(true)]
      ensures !accepted ==> state == old(state)
    {
      accepted := !FlagOn(state, ShowKey(Saved, key)) && !FlagOn(state, SummarizingKey(Saved, key));
      if accepted {
        FlagKeysAreNotAudio(Saved, key);
        WriteKeepsInvariants(state, ShowKey(Saved, key), Flag(true));
        state := state[ShowKey(Saved, key) := Flag(true)];
      }
    }

    /** The summarization step for the item at `index` (key `key`) while `summarizing_<key>` is
        set: a truthy stored summary is reused with no summarizer call and no write; otherwise
        the summarizer gets the prompt and the result is saved. Either way the summary becomes
        visible and the summarizing flag is cleared. Returns the prompt sent, if any, and the
        writes attempted. */
    method ProcessSummarize(category: string, index: nat, key: string, stored: Option<string>,
                            summarize: string -> string)
      returns (prompt: Option<string>, writes: seq<StoreWrite>)
      requires Valid() && category in Cached(state) && index < |Cached(state)[category].items|
      modifies this
      ensures Valid() && query == old(query)
      ensures var cache := Cached(old(state));
        var item := cache[category].items[index];
        var s := SummaryFor(item, stored, summarize);
        && (!FlagOn(old(state), SummarizingKey(Latest, key)) ==> state == old(state) && prompt == None && writes == [])
        && (FlagOn(old(state), SummarizingKey(Latest, key)) ==>
              && state == old(state)[CacheKey := Cache(WithSummary(cache, category, index, s))]
                                    [ShowKey(Latest, key) := Flag(true)][SummarizingKey(Latest, key) := Flag(false)]
              && prompt == (if Truthy(stored) then None else Some(Prompt(item)))
              && writes == (if Truthy(stored) then [] else [SaveSummary(item.(summary := s), s, category)]))
    {
      prompt, writes := None, [];
      if !FlagOn(state, SummarizingKey(Latest, key)) {
        return;
      }
      var cache := state[CacheKey].entries;
      var item := cache[category].items[index];
      var s: string;
      if Truthy(stored) {
        s := stored.value;
      } else {
        prompt := Some(Prompt(item));
        s := summarize(prompt.value);
        writes := [SaveSummary(item.(summary := s), s, category)];
      }
      AppKeysAreNotAudio();
      FlagKeysAreNotAudio(Latest, key);
      var cache' := WithSummary(cache, category, index, s);
      WriteKeepsInvariants(state, CacheKey, Cache(cache'));
      state := state[CacheKey := Cache(cache')];
      WriteKeepsInvariants(state, ShowKey(Latest, key), Flag(true));
      state := state[ShowKey(Latest, key) := Flag(true)];
      WriteKeepsInvariants(state, SummarizingKey(Latest, key), Flag(false));
      state := state[SummarizingKey(Latest, key) := Flag(false)];
    }

    /** Save, shown only for articles not yet bookmarked: computes the summary to save (stored
        if truthy, else from the summarizer), always attempts both writes — the bookmark with
        the item as it stands — and only when both succeed stores the summary in the item and
        shows it. `summaryOk` and `bookmarkOk` are what the two writes return. */
    method Save(category: string, index: nat, key: string, bookmarked: bool, stored: Option<string>,
                summarize: string -> string, summaryOk: bool, bookmarkOk: bool)
      returns (prompt: Option<string>, writes: seq<StoreWrite>)
      requires Valid() && category in Cached(state) && index < |Cached(state)[category].items|
      modifies this
      ensures Valid() && query == old(query)
      ensures var cache := Cached(old(state));
        var item := cache[category].items[index];
        var s := SummaryFor(item, stored, summarize);
        && (bookmarked ==> state == old(state) && prompt == None && writes == [])
        && (!bookmarked ==>
              && writes == [SaveSummary(item, s, category), SaveBookmark(item)]
              && prompt == (if Truthy(stored) then None else Some(Prompt(item))))
        && (!bookmarked && summaryOk && bookmarkOk ==>
              state == old(state)[CacheKey := Cache(WithSummary(cache, category, index, s))][ShowKey(Latest, key) := Flag(true)])
        && (!bookmarked && !(summaryOk && bookmarkOk) ==> state == old(state))
    {
      prompt, writes := None, [];
      if bookmarked {
        return;
      }
      var cache := state[CacheKey].entries;
      var item := cache[category].items[index];
      var s: string;
      if Truthy(stored) {
        s := stored.value;
      } else {
        prompt := Some(Prompt(item));
        s := summarize(prompt.value);
      }
      writes := [SaveSummary(item, s, category), SaveBookmark(item)];
      if summaryOk && bookmarkOk {
        AppKeysAreNotAudio();
        FlagKeysAreNotAudio(Latest, key);
        var cache' := WithSummary(cache, category, index, s);
        WriteKeepsInvariants(state, CacheKey, Cache(cache'));
        state := state[CacheKey := Cache(cache')];
        WriteKeepsInvariants(state, ShowKey(Latest, key), Flag(true));
        state := state[ShowKey(Latest, key) := Flag(true)];
      }
    }

    /** Listen (EN) / Listen (HI), shown once the summary is visible (and, in Latest News,
        non-empty): selects one language and clears the other. `summary` is the item's summary. */
    method Listen(listing: Listing, key: string, lang: Lang, summary: string) returns (accepted: bool)
      requires Valid()
      modifies this
      ensures Valid() && query == old(query)
      ensures accepted == (FlagOn(old(state), ShowKey(listing, key)) && (listing == Saved || summary != ""))
      ensures accepted ==> state == old(state)[AudioKey(listing, lang, key) := Flag(true)]
                                              [AudioKey(listing, lang.Other(), key) := Flag(false)]
      ensures accepted ==> FlagOn(state, AudioKey(listing, lang, key)) && !FlagOn(state, AudioKey(listing, lang.Other(), key))
      ensures !accepted ==> state == old(state)
    {
      accepted := FlagOn(state, ShowKey(listing, key)) && (listing == Saved || summary != "");
      if accepted {
        SelectAudioKeepsExclusive(state, listing, lang, key);
        AudioKeysDiffer(listing, lang, key);
        AudioKeyIsAudio(listing, lang, key);
        AudioKeyIsAudio(listing, lang.Other(), key);
        AppKeysAreNotAudio();
        ghost var before := state;
        state := state[AudioKey(listing, lang, key) := Flag(true)][AudioKey(listing, lang.Other(), key) := Flag(false)];
        assert Cached(state) == Cached(before);
      }
    }
  }
}
