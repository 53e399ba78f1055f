/** The filter panel of the feed page. Genre and sort commit at once; the
    search and book text boxes keep a local value that a debounce timer
    commits later (the timer firing is an explicit event here). Every commit
    hands the page a whole filter record with the page reset to 1. */
module FeedFilters {
  import opened Wrappers
  import opened Feed

  /** `handleGenreChange`: the record handed to the page. */
  function GenreChange(f: Filters, value: string): Filters {
    f.(genre := value, page := 1)
  }

  /** `handleSortChange`: the record handed to the page. */
  function SortChange(f: Filters, value: string): Filters {
    f.(sort := value, page := 1)
  }

  /** The genre badge's close button. */
  function RemoveGenreBadge(f: Filters): Filters {
    f.(genre := "", page := 1)
  }

  /** The sort badge's close button. */
  function RemoveSortBadge(f: Filters): Filters {
    f.(sort := "", page := 1)
  }

  /** What the search debounce emits when it fires: the committed filters
      with the local search text and page 1, or nothing when the text equals
      the committed one. Whatever it emits changes the filter key, so it
      always leads to exactly one clear-and-reload. */
  function SearchCommit(local: string, f: Filters): (r: Option<Filters>)
    ensures r.None? <==> local == f.search
    ensures r.Some? ==> Criteria(r.value) == Criteria(f).(search := local) && r.value.page == 1
    ensures r.Some? ==> FilterKey(r.value) != FilterKey(f)
  {
    if local != f.search then
      FilterKeyDetectsSingleChange(f, f.(search := local, page := 1));
      Some(f.(search := local, page := 1))
    else None
  }

  /** The same rule for the book text. */
  function BookCommit(local: string, f: Filters): (r: Option<Filters>)
    ensures r.None? <==> local == f.book
    ensures r.Some? ==> Criteria(r.value) == Criteria(f).(book := local) && r.value.page == 1
    ensures r.Some? ==> FilterKey(r.value) != FilterKey(f)
  {
    if local != f.book then
      FilterKeyDetectsSingleChange(f, f.(book := local, page := 1));
      Some(f.(book := local, page := 1))
    else None
  }

  /** `[search, genre, book, sort].filter(Boolean).length`: exactly the
      number of filters the page URL carries. */
  function ActiveFilterCount(f: Filters): (n: nat)
    ensures n == |UrlParams(f)|
    ensures n <= 4
    ensures n == 0 <==> Criteria(f) == Criteria(EmptyFilters)
    ensures n == 4 <==> f.search != "" && f.genre != "" && f.book != "" && f.sort != ""
  {
    (if f.search != "" then 1 else 0) + (if f.genre != "" then 1 else 0)
    + (if f.book != "" then 1 else 0) + (if f.sort != "" then 1 else 0)
  }

  /** A genre change keeps the other filters, resets the page, and reloads
      the feed exactly when the genre really changed. */
  lemma GenreChangeReloadsIffChanged(f: Filters, value: string)
    ensures Criteria(GenreChange(f, value)) == Criteria(f).(genre := value) && GenreChange(f, value).page == 1
    ensures FilterKey(GenreChange(f, value)) != FilterKey(f) <==> value != f.genre
  {
    if value != f.genre {
      FilterKeyDetectsSingleChange(f, GenreChange(f, value));
    }
  }

  /** The same for a sort change. */
  lemma SortChangeReloadsIffChanged(f: Filters, value: string)
    ensures Criteria(SortChange(f, value)) == Criteria(f).(sort := value) && SortChange(f, value).page == 1
    ensures FilterKey(SortChange(f, value)) != FilterKey(f) <==> value != f.sort
  {
    if value != f.sort {
      FilterKeyDetectsSingleChange(f, SortChange(f, value));
    }
  }

  /** Closing a badge empties that one filter, keeps the others, resets the
      page, lowers the active count by one and reloads the feed. */
  lemma RemoveBadgeDropsOneFilter(f: Filters)
    ensures f.genre != "" ==>
      && Criteria(RemoveGenreBadge(f)) == Criteria(f).(genre := "") && RemoveGenreBadge(f).page == 1
      && ActiveFilterCount(RemoveGenreBadge(f)) == ActiveFilterCount(f) - 1
      && FilterKey(RemoveGenreBadge(f)) != FilterKey(f)
    ensures f.sort != "" ==>
      && Criteria(RemoveSortBadge(f)) == Criteria(f).(sort := "") && RemoveSortBadge(f).page == 1
      && ActiveFilterCount(RemoveSortBadge(f)) == ActiveFilterCount(f) - 1
      && FilterKey(RemoveSortBadge(f)) != FilterKey(f)
  {
    if f.genre != "" { GenreChangeReloadsIffChanged(f, ""); }
    if f.sort != "" { SortChangeReloadsIffChanged(f, ""); }
  }

  /** The panel's local text state, bound to the page it filters. Each
      debounce effect re-runs only when its own local text changes, so the
      timer it arms commits against the `filters` prop of that render, not
      against the filters current when it fires. */
  class FilterPanel {
    var localSearch: string
    var localBook: string
    /** The `filters` prop captured by the search timer last armed. */
    var searchFilters: Filters
    /** The `filters` prop captured by the book timer last armed. */
    var bookFilters: Filters

    /** The text boxes start from the committed filters, and the mount arms
        both timers with them. */
    constructor (f: Filters)
      ensures localSearch == f.search && localBook == f.book
      ensures searchFilters == f && bookFilters == f
    {
      localSearch := f.search;
      localBook := f.book;
      searchFilters := f;
      bookFilters := f;
    }

    /** A keystroke in the search box (or its badge's close button, which
        sets the text to ""). A new text re-arms the search timer with the
        filters the page last rendered; the same text changes nothing. */
    method TypeSearch(page: FeedController, text: string)
      modifies this`localSearch, this`searchFilters
      ensures localSearch == text
      ensures searchFilters == if text != old(localSearch) then page.rendered.filters else old(searchFilters)
    {
      if text != localSearch {
        localSearch := text;
        searchFilters := page.rendered.filters;
      }
    }

    /** A keystroke in the book box (or its badge's close button). */
    method TypeBook(page: FeedController, text: string)
      modifies this`localBook, this`bookFilters
      ensures localBook == text
      ensures bookFilters == if text != old(localBook) then page.rendered.filters else old(bookFilters)
    {
      if text != localBook {
        localBook := text;
        bookFilters := page.rendered.filters;
      }
    }

    /** The search debounce timer fires: commit the local text if it differs
        from the search of the filters the timer captured. */
    method SearchTimerFires(page: FeedController) returns (committed: bool)
      modifies page`feed, page`filters
      ensures committed <==> localSearch != searchFilters.search
      ensures committed ==> page.filters == searchFilters.(search := localSearch, page := 1) && page.feed == []
      ensures !committed ==> unchanged(page)
    {
      var emitted := SearchCommit(localSearch, searchFilters);
      committed := emitted.Some?;
      if committed {
        page.HandleFiltersChange(emitted.value);
      }
    }

    /** The book debounce timer fires. */
    method BookTimerFires(page: FeedController) returns (committed: bool)
      modifies page`feed, page`filters
      ensures committed <==> localBook != bookFilters.book
      ensures committed ==> page.filters == bookFilters.(book := localBook, page := 1) && page.feed == []
      ensures !committed ==> unchanged(page)
    {
      var emitted := BookCommit(localBook, bookFilters);
      committed := emitted.Some?;
      if committed {
        page.HandleFiltersChange(emitted.value);
      }
    }

    /** A genre is picked from the list (or its badge closed, with ""). */
    method SelectGenre(page: FeedController, value: string)
      modifies page`feed, page`filters
      ensures page.filters == GenreChange(page.rendered.filters, value) && page.feed == []
    {
      page.HandleFiltersChange(GenreChange(page.rendered.filters, value));
    }

    /** A sort order is picked (or its badge closed, with ""). */
    method SelectSort(page: FeedController, value: string)
      modifies page`feed, page`filters
      ensures page.filters == SortChange(page.rendered.filters, value) && page.feed == []
    {
      page.HandleFiltersChange(SortChange(page.rendered.filters, value));
    }

    /** "Clear All": empty both text boxes, then let the page clear. The
        page renders with the cleared filters in the same batch, so a timer
        re-armed by a changed text captures the empty filters. */
    method ClearAll(page: FeedController)
      modifies this, page`feed, page`filters, page`prevFilterKey
      ensures localSearch == "" && localBook == ""
      ensures searchFilters == if old(localSearch) != "" then EmptyFilters else old(searchFilters)
      ensures bookFilters == if old(localBook) != "" then EmptyFilters else old(bookFilters)
      ensures page.filters == EmptyFilters && page.feed == [] && page.prevFilterKey == None
    {
      if localSearch != "" {
        localSearch := "";
        searchFilters := EmptyFilters;
      }
      if localBook != "" {
        localBook := "";
        bookFilters := EmptyFilters;
      }
      page.HandleClearFilters();
    }
  }

  // ---------------------------------------------------------------- scenarios

  /** A genre picked while the search timer is pending is lost: the timer
      commits the filters it captured when the text was typed, whose genre
      is still the old one. */
  method GenrePickInsideSearchWindowIsLost(page: FeedController, text: string, genre: string)
    returns (committed: bool)
    requires text != page.rendered.filters.search && genre != page.rendered.filters.genre
    modifies page`feed, page`filters, page`rendered
    ensures committed
    ensures page.filters.search == text && page.filters.page == 1
    ensures page.filters.genre == old(page.rendered.filters.genre) && page.filters.genre != genre
  {
    var before := page.rendered.filters;
    var panel := new FilterPanel(before);
    panel.TypeSearch(page, text);
    panel.SelectGenre(page, genre);
    page.Rerender();
    assert page.rendered.filters.genre == genre;
    committed := panel.SearchTimerFires(page);
  }
}
