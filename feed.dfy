/** The feed page controller: the filter record, the page counter, the
    "current request" token, the loading flags and the last-seen filter key,
    with the effects that keep the feed slice, the Feed API and the page URL
    in step. Each React effect is a method the caller invokes when React
    would run it; each asynchronous load is split into the part that runs when
    it starts (`LoadFeed`) and the part that runs when its response or error
    arrives (`FinishLoad`). */
module Feed {
  import opened Wrappers
  import opened FeedSlice
  import opened BookService

  /** The feed page's `filters` state. */
  datatype Filters = Filters(search: string, genre: string, book: string, sort: string, page: int)

  const EmptyFilters: Filters := Filters("", "", "", "", 1)
  const PageSize: int := 10
  const LoadFailed: string := "Failed to load feed"

  /** The filter object handed to `getFeed`. */
  function Criteria(f: Filters): SearchFilters {
    SearchFilters(f.search, f.genre, f.book, f.sort)
  }

  /** `searchParams.get(key) || ""`. */
  function UrlValue(url: seq<Param>, key: string): string {
    Lookup(url, key).GetOr("")
  }

  /** The filters the page starts with: each text field from the URL, page 1. */
  function InitialFilters(url: seq<Param>): Filters {
    Filters(UrlValue(url, "search"), UrlValue(url, "genre"), UrlValue(url, "book"), UrlValue(url, "sort"), 1)
  }

  /** `${search}|${genre}|${book}|${sort}`: the page is not part of it. */
  function FilterKey(f: Filters): string {
    f.search + "|" + f.genre + "|" + f.book + "|" + f.sort
  }

  /** The query the URL-sync effect writes: the non-empty text filters. */
  function UrlParams(f: Filters): seq<Param> {
    OptionalParams(Criteria(f))
  }

  /** What the Feed API may answer: nothing, an array of profiles, an object
      whose `data` field holds the answer, or any other value. */
  datatype FeedBody = Nothing | ProfileList(items: seq<Profile>) | Envelope(data: FeedBody) | OtherValue

  /** `response?.data || response || []`, then kept only if it is an array:
      the profiles of a bare array or of an array in `data`, otherwise none. */
  function FeedData(body: FeedBody): (r: seq<Profile>)
    ensures body.ProfileList? ==> r == body.items
    ensures body.Envelope? && body.data.ProfileList? ==> r == body.data.items
    ensures !body.ProfileList? && !(body.Envelope? && body.data.ProfileList?) ==> r == []
  {
    var data := if body.Envelope? && !body.data.Nothing? then body.data
                else if !body.Nothing? then body
                else ProfileList([]);
    if data.ProfileList? then data.items else []
  }

  /** How a started load ends. A `Cancelled` outcome would need the abort
      signal to reach the request, which `getFeed` never lets it do. */
  datatype LoadOutcome = Loaded(body: FeedBody) | Cancelled | Failed(serverMessage: Option<string>)

  /** `err?.response?.data?.message || "Failed to load feed"`. */
  function ErrorText(serverMessage: Option<string>): (r: string)
    ensures r != ""
    ensures serverMessage.Some? && serverMessage.value != "" ==> r == serverMessage.value
    ensures !(serverMessage.Some? && serverMessage.value != "") ==> r == LoadFailed
  {
    if serverMessage.Some? && serverMessage.value != "" then serverMessage.value else LoadFailed
  }

  /** What the page shows. */
  datatype Screen = LoadingDots | Card(profile: Profile) | NoUsers(suggestAdjusting: bool, offerClear: bool)

  /** The dots while the first page is loading, otherwise the head of the
      queue alone, otherwise the empty state; it suggests adjusting the
      filters exactly when search, genre or book is set, and offers to clear
      them exactly when any of the four filters is set. */
  function Render(loading: bool, feed: seq<Profile>, f: Filters): (s: Screen)
    ensures s.LoadingDots? <==> loading && feed == []
    ensures s.Card? <==> feed != []
    ensures s.Card? ==> s.profile == feed[0]
    ensures s.NoUsers? ==> (s.offerClear <==> Criteria(f) != Criteria(EmptyFilters))
    ensures s.NoUsers? ==> (s.suggestAdjusting <==> f.search != "" || f.genre != "" || f.book != "")
  {
    if loading && feed == [] then LoadingDots
    else if feed != [] then Card(feed[0])
    else NoUsers(f.search != "" || f.genre != "" || f.book != "",
                 f.search != "" || f.genre != "" || f.book != "" || f.sort != "")
  }

  /** What one render of the page saw. React effects run with the values of
      the render that scheduled them, not with the latest state. */
  datatype Snapshot = Snapshot(feed: seq<Profile>, loading: bool, filters: Filters)

  class FeedController {
    /** The feed slice of the global store. */
    var feed: seq<Profile>
    var filters: Filters
    /** The `loading` state and the `loadingRef` mirror of it. */
    var loading: bool
    var loadingRef: bool
    var error: string
    /** `abortControllerRef.current`: the controller of the current load. */
    var current: Option<nat>
    var prevFilterKey: Option<string>
    /** The page URL's query. */
    var searchParams: seq<Param>
    /** Abort controllers are numbered in creation order. */
    var controllers: nat
    var aborted: set<nat>
    /** Loads started and not yet finished. */
    var pending: set<nat>
    /** Every request issued to the Feed API, in order. */
    var sent: seq<HttpGet>
    /** The values of the last render; the effects read these. */
    var rendered: Snapshot

    /** Loading is on exactly while some load is current, and that load is
        still pending and was never aborted. */
    ghost predicate Valid()
      reads this
    {
      && loadingRef == loading
      && (loading <==> current.Some?)
      && (current.Some? ==> current.value in pending && current.value !in aborted)
      && (forall c :: c in pending ==> c < controllers)
      && (forall c :: c in aborted ==> c < controllers)
    }

    /** The page mounts with the URL's query and the store's feed, and
        renders once with them. */
    constructor (url: seq<Param>, storeFeed: seq<Profile>)
      ensures Valid()
      ensures filters == InitialFilters(url) && feed == storeFeed && searchParams == url
      ensures !loading && error == "" && current == None && prevFilterKey == None
      ensures controllers == 0 && aborted == {} && pending == {} && sent == []
      ensures rendered == Snapshot(storeFeed, false, InitialFilters(url))
    {
      feed := storeFeed;
      filters := InitialFilters(url);
      loading := false;
      loadingRef := false;
      error := "";
      current := None;
      prevFilterKey := None;
      searchParams := url;
      controllers := 0;
      aborted := {};
      pending := {};
      sent := [];
      rendered := Snapshot(storeFeed, false, InitialFilters(url));
    }

    /** The page renders again: later effects see the current feed, loading
        state and filters. */
    method Rerender()
      modifies this`rendered
      ensures rendered == Snapshot(feed, loading, filters)
    {
      rendered := Snapshot(feed, loading, filters);
    }

    /** The synchronous start of `loadFeed`: abort the current controller,
        install a new one, raise the loading flags and issue the request.
        The new controller's signal is handed to `getFeed` as a fourth
        argument it does not declare, so the request carries none. */
    method LoadFeed(page: int, criteria: SearchFilters) returns (c: nat)
      requires Valid()
      modifies this`aborted, this`controllers, this`current, this`loading, this`loadingRef,
               this`error, this`sent, this`pending
      ensures Valid()
      ensures c == old(controllers) && controllers == c + 1
      ensures current == Some(c) && pending == old(pending) + {c}
      ensures aborted == old(aborted) + (if old(current).Some? then {old(current).value} else {})
      ensures loading && error == ""
      ensures sent == old(sent) + [FeedRequest(Some(page), Some(PageSize), criteria)]
    {
      if current.Some? {
        aborted := aborted + {current.value};
      }
      c := controllers;
      controllers := controllers + 1;
      current := Some(c);
      loadingRef := true;
      loading := true;
      error := "";
      var request := GetFeed(Some(page), Some(PageSize), criteria);
      sent := sent + [request];
      pending := pending + {c};
    }

    /** The rest of `loadFeed`, when load `c` ends: a response is appended to
        the feed whether or not `c` is still current; an error is shown; and
        only if `c` is still current are the loading flags and the token
        cleared. */
    method FinishLoad(c: nat, outcome: LoadOutcome)
      requires Valid() && c in pending
      modifies this`feed, this`error, this`loading, this`loadingRef, this`current, this`pending
      ensures Valid()
      ensures pending == old(pending) - {c}
      ensures feed == if outcome.Loaded? then AddFeed(Some(old(feed)), FeedData(outcome.body)) else old(feed)
      ensures error == if outcome.Failed? then ErrorText(outcome.serverMessage) else old(error)
      ensures old(current) == Some(c) ==> !loading && current == None
      ensures old(current) != Some(c) ==> loading == old(loading) && current == old(current)
    {
      match outcome {
        case Loaded(body) =>
          feed := AddFeed(Some(feed), FeedData(body));
        case Cancelled =>
        case Failed(message) =>
          error := ErrorText(message);
      }
      if current == Some(c) {
        loading := false;
        loadingRef := false;
        current := None;
      }
      pending := pending - {c};
    }

    /** The mount effect: load page 1 with the filters of the render. */
    method InitialLoadEffect() returns (c: nat)
      requires Valid()
      modifies this`aborted, this`controllers, this`current, this`loading, this`loadingRef,
               this`error, this`sent, this`pending
      ensures Valid()
      ensures c == old(controllers) && controllers == c + 1
      ensures current == Some(c) && pending == old(pending) + {c}
      ensures aborted == old(aborted) + (if old(current).Some? then {old(current).value} else {})
      ensures loading && error == ""
      ensures sent == old(sent) + [FeedRequest(Some(1), Some(PageSize), Criteria(rendered.filters))]
    {
      c := LoadFeed(1, Criteria(rendered.filters));
    }

    /** The filter-key effect: when the key of the rendered filters differs
        from the one last recorded, record it, clear the feed and load
        page 1. */
    method FilterKeyEffect() returns (reloaded: bool)
      requires Valid()
      modifies this`prevFilterKey, this`feed, this`aborted, this`controllers, this`current,
               this`loading, this`loadingRef, this`error, this`sent, this`pending
      ensures Valid()
      ensures reloaded <==> old(prevFilterKey) != Some(FilterKey(rendered.filters))
      ensures reloaded ==> prevFilterKey == Some(FilterKey(rendered.filters)) && feed == []
      ensures reloaded ==> controllers == old(controllers) + 1 && current == Some(old(controllers))
      ensures reloaded ==> pending == old(pending) + {old(controllers)}
      ensures reloaded ==> aborted == old(aborted) + (if old(current).Some? then {old(current).value} else {})
      ensures reloaded ==> loading && error == ""
      ensures reloaded ==> sent == old(sent) + [FeedRequest(Some(1), Some(PageSize), Criteria(rendered.filters))]
      ensures !reloaded ==> unchanged(this)
    {
      var key := FilterKey(rendered.filters);
      reloaded := prevFilterKey != Some(key);
      if reloaded {
        prevFilterKey := Some(key);
        feed := ClearFeed(Some(feed));
        var _ := LoadFeed(1, Criteria(rendered.filters));
      }
    }

    /** The auto-load effect: when the render saw one or two cards left and
        nothing loading, load the page after the rendered one and advance the
        live page counter by one. */
    method AutoLoadEffect() returns (fired: bool)
      requires Valid()
      modifies this`filters, this`aborted, this`controllers, this`current, this`loading,
               this`loadingRef, this`error, this`sent, this`pending
      ensures Valid()
      ensures fired <==> 1 <= |rendered.feed| <= 2 && !rendered.loading
      ensures fired ==> filters == old(filters).(page := old(filters).page + 1)
      ensures fired ==> controllers == old(controllers) + 1 && current == Some(old(controllers))
      ensures fired ==> pending == old(pending) + {old(controllers)}
      ensures fired ==> aborted == old(aborted) + (if old(current).Some? then {old(current).value} else {})
      ensures fired ==> loading && error == ""
      ensures fired ==> sent == old(sent) + [FeedRequest(Some(rendered.filters.page + 1), Some(PageSize), Criteria(rendered.filters))]
      ensures !fired ==> unchanged(this)
    {
      fired := |rendered.feed| > 0 && |rendered.feed| <= 2 && !rendered.loading;
      if fired {
        var _ := LoadFeed(rendered.filters.page + 1, Criteria(rendered.filters));
        filters := filters.(page := filters.page + 1);
      }
    }

    /** The URL-sync effect: the query becomes the non-empty rendered text
        filters, set one by one in the order search, genre, book, sort. */
    method UrlSyncEffect()
      modifies this`searchParams
      ensures searchParams == UrlParams(rendered.filters)
    {
      var params: seq<Param> := [];
      params := AppendIfSet(params, "search", rendered.filters.search);
      params := AppendIfSet(params, "genre", rendered.filters.genre);
      params := AppendIfSet(params, "book", rendered.filters.book);
      params := AppendIfSet(params, "sort", rendered.filters.sort);
      searchParams := params;
    }

    /** `handleFiltersChange`: clear the feed and take the new filters with
        the page forced back to 1. */
    method HandleFiltersChange(next: Filters)
      modifies this`feed, this`filters
      ensures feed == [] && filters == next.(page := 1)
    {
      feed := ClearFeed(Some(feed));
      filters := next.(page := 1);
    }

    /** `handleClearFilters`: clear the feed, empty every filter, go back to
        page 1 and forget the last filter key. */
    method HandleClearFilters()
      modifies this`feed, this`filters, this`prevFilterKey
      ensures feed == [] && filters == EmptyFilters && prevFilterKey == None
    {
      feed := ClearFeed(Some(feed));
      prevFilterKey := None;
      filters := EmptyFilters;
    }
  }

  // ---------------------------------------------------------------- scenarios

  /** Two loads where the older one answers last: both pages end up in the
      feed (newer first), and loading is off once the current one answered. */
  method SupersededResponseIsAppended(older: seq<Profile>, newer: seq<Profile>)
    returns (shown: seq<Profile>, stillLoading: bool)
    ensures shown == newer + older
    ensures !stillLoading
  {
    var page := new FeedController([], []);
    var first := page.LoadFeed(1, Criteria(EmptyFilters));
    var second := page.LoadFeed(1, Criteria(EmptyFilters));
    page.FinishLoad(second, Loaded(ProfileList(newer)));
    page.FinishLoad(first, Loaded(ProfileList(older)));
    shown, stillLoading := page.feed, page.loading;
  }

  /** The first render's two load effects: the initial-load effect and then
      the filter-key effect, which sees no recorded key. Both request page 1
      with the URL's filters; the second load is current. */
  method Mount(url: seq<Param>, storeFeed: seq<Profile>) returns (page: FeedController)
    ensures fresh(page) && page.Valid()
    ensures page.rendered == Snapshot(storeFeed, false, InitialFilters(url))
    ensures page.filters == InitialFilters(url) && page.feed == []
    ensures page.prevFilterKey == Some(FilterKey(InitialFilters(url)))
    ensures page.pending == {0, 1} && page.current == Some(1) && page.controllers == 2
    ensures page.sent == [FeedRequest(Some(1), Some(PageSize), Criteria(InitialFilters(url))),
                          FeedRequest(Some(1), Some(PageSize), Criteria(InitialFilters(url)))]
  {
    page := new FeedController(url, storeFeed);
    var initial := page.InitialLoadEffect();
    var reloaded := page.FilterKeyEffect();
    assert reloaded;
  }

  /** Mounting requests page 1 twice, and when both answers arrive the feed
      holds the first page twice. */
  method MountLoadsFirstPageTwice(url: seq<Param>, firstPage: seq<Profile>)
    returns (requests: seq<HttpGet>, shown: seq<Profile>)
    ensures |requests| == 2 && requests[0] == requests[1]
    ensures requests[0] == FeedRequest(Some(1), Some(PageSize), Criteria(InitialFilters(url)))
    ensures shown == firstPage + firstPage
  {
    var page := Mount(url, []);
    page.FinishLoad(0, Loaded(ProfileList(firstPage)));
    page.FinishLoad(1, Loaded(ProfileList(firstPage)));
    requests, shown := page.sent, page.feed;
  }

  /** The first render's effects when the store still holds one or two
      profiles: besides the two page-1 requests, the auto-load effect sees
      those profiles with nothing loading and requests page 2. */
  method MountWithShortQueue(url: seq<Param>, storeFeed: seq<Profile>) returns (page: FeedController)
    requires 1 <= |storeFeed| <= 2
    ensures fresh(page) && page.Valid()
    ensures page.pending == {0, 1, 2} && page.current == Some(2) && page.feed == []
    ensures page.sent == [FeedRequest(Some(1), Some(PageSize), Criteria(InitialFilters(url))),
                          FeedRequest(Some(1), Some(PageSize), Criteria(InitialFilters(url))),
                          FeedRequest(Some(2), Some(PageSize), Criteria(InitialFilters(url)))]
    ensures page.filters.page == 2
  {
    page := Mount(url, storeFeed);
    var fired := page.AutoLoadEffect();
    assert fired;
  }

  /** When the three loads of such a mount answer in order, the feed holds
      page 1 twice followed by page 2. */
  method MountWithShortQueueAlsoLoadsPageTwo(url: seq<Param>, storeFeed: seq<Profile>,
                                             firstPage: seq<Profile>, secondPage: seq<Profile>)
    returns (requests: seq<HttpGet>, shown: seq<Profile>, pageCounter: int)
    requires 1 <= |storeFeed| <= 2
    ensures |requests| == 3
    ensures requests[0] == requests[1] == FeedRequest(Some(1), Some(PageSize), Criteria(InitialFilters(url)))
    ensures requests[2] == FeedRequest(Some(2), Some(PageSize), Criteria(InitialFilters(url)))
    ensures shown == firstPage + firstPage + secondPage
    ensures pageCounter == 2
  {
    var page := MountWithShortQueue(url, storeFeed);
    page.FinishLoad(0, Loaded(ProfileList(firstPage)));
    assert page.feed == firstPage;
    page.FinishLoad(1, Loaded(ProfileList(firstPage)));
    page.FinishLoad(2, Loaded(ProfileList(secondPage)));
    requests, shown, pageCounter := page.sent, page.feed, page.filters.page;
  }

  /** A filter change while the mount's two loads are still out: the feed
      is cleared and a third load, for the new filters, becomes current. */
  method ChangeFiltersDuringMount(url: seq<Param>, next: Filters) returns (page: FeedController)
    requires FilterKey(next) != FilterKey(InitialFilters(url))
    ensures fresh(page) && page.Valid()
    ensures page.pending == {0, 1, 2} && page.current == Some(2) && page.feed == []
    ensures page.sent != [] && page.sent[|page.sent| - 1] == FeedRequest(Some(1), Some(PageSize), Criteria(next))
  {
    page := Mount(url, []);
    page.HandleFiltersChange(next);
    page.Rerender();
    FilterKeyIgnoresPage(next, 1);
    var reloaded := page.FilterKeyEffect();
    assert reloaded;
  }

  /** The new filters are requested, but the answers for the old filters
      are still appended to the cleared feed, in arrival order. Here they
      arrive after the new page, so they follow it. */
  method StaleAnswersAfterFilterChange(url: seq<Param>, next: Filters,
                                       oldPage: seq<Profile>, newPage: seq<Profile>)
    returns (lastRequest: HttpGet, shown: seq<Profile>, stillLoading: bool)
    requires FilterKey(next) != FilterKey(InitialFilters(url))
    ensures lastRequest == FeedRequest(Some(1), Some(PageSize), Criteria(next))
    ensures shown == newPage + oldPage + oldPage
    ensures !stillLoading
  {
    var page := ChangeFiltersDuringMount(url, next);
    lastRequest := page.sent[|page.sent| - 1];
    page.FinishLoad(2, Loaded(ProfileList(newPage)));
    assert page.feed == newPage;
    page.FinishLoad(0, Loaded(ProfileList(oldPage)));
    page.FinishLoad(1, Loaded(ProfileList(oldPage)));
    shown, stillLoading := page.feed, page.loading;
  }

  /** The other arrival order: an answer for the old filters that arrives
      before the new page lands in front of it, and one that arrives later
      follows it. */
  method StaleAnswersAroundNewPage(url: seq<Param>, next: Filters,
                                   oldPage: seq<Profile>, newPage: seq<Profile>)
    returns (shown: seq<Profile>, stillLoading: bool)
    requires FilterKey(next) != FilterKey(InitialFilters(url))
    ensures shown == oldPage + newPage + oldPage
    ensures !stillLoading
  {
    var page := ChangeFiltersDuringMount(url, next);
    page.FinishLoad(0, Loaded(ProfileList(oldPage)));
    assert page.feed == oldPage;
    page.FinishLoad(2, Loaded(ProfileList(newPage)));
    page.FinishLoad(1, Loaded(ProfileList(oldPage)));
    shown, stillLoading := page.feed, page.loading;
  }

  // ---------------------------------------------------------------- lemmas

  /** How many of the four text filters differ between `f` and `g`. */
  function ChangedTextFilters(f: Filters, g: Filters): nat {
    (if f.search != g.search then 1 else 0) + (if f.genre != g.genre then 1 else 0)
    + (if f.book != g.book then 1 else 0) + (if f.sort != g.sort then 1 else 0)
  }

  lemma MiddleDiffers(p: string, x: string, y: string, s: string)
    requires x != y
    ensures p + x + s != p + y + s
  {
    if |x| == |y| {
      assert (p + x + s)[|p|..|p| + |x|] == x;
      assert (p + y + s)[|p|..|p| + |y|] == y;
    } else {
      assert |p + x + s| != |p + y + s|;
    }
  }

  /** The key ignores the page, so a page-only change never reloads. */
  lemma FilterKeyIgnoresPage(f: Filters, page: int)
    ensures FilterKey(f.(page := page)) == FilterKey(f)
  {
  }

  /** A change to exactly one text filter always changes the key. */
  lemma FilterKeyDetectsSingleChange(f: Filters, g: Filters)
    requires ChangedTextFilters(f, g) == 1
    ensures FilterKey(f) != FilterKey(g)
  {
    if f.search != g.search {
      MiddleDiffers([], f.search, g.search, "|" + f.genre + "|" + f.book + "|" + f.sort);
      assert FilterKey(f) == [] + f.search + ("|" + f.genre + "|" + f.book + "|" + f.sort);
      assert FilterKey(g) == [] + g.search + ("|" + f.genre + "|" + f.book + "|" + f.sort);
    } else if f.genre != g.genre {
      MiddleDiffers(f.search + "|", f.genre, g.genre, "|" + f.book + "|" + f.sort);
      assert FilterKey(f) == (f.search + "|") + f.genre + ("|" + f.book + "|" + f.sort);
      assert FilterKey(g) == (f.search + "|") + g.genre + ("|" + f.book + "|" + f.sort);
    } else if f.book != g.book {
      MiddleDiffers(f.search + "|" + f.genre + "|", f.book, g.book, "|" + f.sort);
      assert FilterKey(f) == (f.search + "|" + f.genre + "|") + f.book + ("|" + f.sort);
      assert FilterKey(g) == (f.search + "|" + f.genre + "|") + g.book + ("|" + f.sort);
    } else {
      MiddleDiffers(f.search + "|" + f.genre + "|" + f.book + "|", f.sort, g.sort, []);
      assert FilterKey(f) == (f.search + "|" + f.genre + "|" + f.book + "|") + f.sort + [];
      assert FilterKey(g) == (f.search + "|" + f.genre + "|" + f.book + "|") + g.sort + [];
    }
  }

  /** The key is not injective: filters containing '|' can change in two
      fields and keep the key, and then no reload happens. */
  lemma FilterKeyCollision()
    ensures ChangedTextFilters(Filters("a|", "", "b", "", 1), Filters("a", "", "|b", "", 1)) == 2
    ensures FilterKey(Filters("a|", "", "b", "", 1)) == FilterKey(Filters("a", "", "|b", "", 1))
  {
  }

  /** The URL query lists exactly the non-empty text filters, in the order
      search, genre, book, sort, and never the page. */
  lemma UrlParamsExact(f: Filters, key: string)
    ensures Lookup(UrlParams(f), key) ==
      if IsFilterKey(key) && FilterValue(Criteria(f), key) != "" then Some(FilterValue(Criteria(f), key)) else None
    ensures RankedWithin(UrlParams(f), 2, 5)
  {
    OptionalParamsLookup(Criteria(f), key);
    OptionalParamsOrdered(Criteria(f));
  }

  /** Opening the URL the page wrote gives back the same text filters, on
      page 1: the URL is a faithful bookmark of the filters. */
  lemma UrlRoundTrip(f: Filters)
    ensures InitialFilters(UrlParams(f)) == f.(page := 1)
  {
    OptionalParamsLookup(Criteria(f), "search");
    OptionalParamsLookup(Criteria(f), "genre");
    OptionalParamsLookup(Criteria(f), "book");
    OptionalParamsLookup(Criteria(f), "sort");
  }
}
