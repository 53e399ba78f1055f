/** The feed request of the book service: `getFeed` turns a page number, a
    page size and four optional filters into the query of a GET on `/feed`.
    The module also holds the fixed genre vocabulary. */
module BookService {
  import opened Wrappers
  import opened Text

  /** One `key=value` pair of a query, in the order it was appended. */
  datatype Param = Param(key: string, value: string)

  /** The filter object `getFeed` reads; a missing value is "". */
  datatype SearchFilters = SearchFilters(search: string, genre: string, book: string, sort: string)

  /** A credentialed GET: the request carries no abort signal, only
      `withCredentials`. */
  datatype HttpGet = HttpGet(path: string, query: seq<Param>, withCredentials: bool)

  const DefaultPage: int := 1
  const DefaultLimit: int := 10

  /** `params.get(key)`: the value of the first pair with that key. */
  function Lookup(q: seq<Param>, key: string): Option<string> {
    if q == [] then None
    else if q[0].key == key then Some(q[0].value)
    else Lookup(q[1..], key)
  }

  /** The value of the filter that the query key `key` stands for. */
  function FilterValue(f: SearchFilters, key: string): string {
    if key == "search" then f.search
    else if key == "genre" then f.genre
    else if key == "book" then f.book
    else if key == "sort" then f.sort
    else ""
  }

  /** The position a key takes in every query built here. */
  function KeyRank(key: string): nat {
    if key == "page" then 0
    else if key == "limit" then 1
    else if key == "search" then 2
    else if key == "genre" then 3
    else if key == "book" then 4
    else if key == "sort" then 5
    else 6
  }

  predicate IsFilterKey(key: string) {
    key == "search" || key == "genre" || key == "book" || key == "sort"
  }

  /** `if (value) params.append(key, value)`: one pair, or none for "". */
  function IfSet(key: string, value: string): seq<Param> {
    if value != "" then [Param(key, value)] else []
  }

  /** The non-empty filters, in the order search, genre, book, sort. */
  function OptionalParams(f: SearchFilters): seq<Param> {
    IfSet("search", f.search) + IfSet("genre", f.genre) + IfSet("book", f.book) + IfSet("sort", f.sort)
  }

  /** The query of `getFeed(page, limit, filters)`; an omitted page or
      limit takes its default. */
  function FeedQuery(page: Option<int>, limit: Option<int>, f: SearchFilters): seq<Param> {
    [Param("page", IntToDecimal(page.GetOr(DefaultPage))),
     Param("limit", IntToDecimal(limit.GetOr(DefaultLimit)))]
    + OptionalParams(f)
  }

  function FeedRequest(page: Option<int>, limit: Option<int>, f: SearchFilters): HttpGet {
    HttpGet("/feed", FeedQuery(page, limit, f), true)
  }

  /** `if (value) params.append(key, value)`. */
  method AppendIfSet(params: seq<Param>, key: string, value: string) returns (r: seq<Param>)
    ensures r == params + IfSet(key, value)
  {
    r := params;
    if value != "" {
      r := r + [Param(key, value)];
    }
  }

  /** `getFeed`: builds the query pair by pair and issues the GET. The
      declaration has three parameters; nothing else reaches the request. */
  method GetFeed(page: Option<int>, limit: Option<int>, filters: SearchFilters) returns (request: HttpGet)
    ensures request == FeedRequest(page, limit, filters)
  {
    var params := [Param("page", IntToDecimal(page.GetOr(DefaultPage))),
                   Param("limit", IntToDecimal(limit.GetOr(DefaultLimit)))];
    params := AppendIfSet(params, "search", filters.search);
    params := AppendIfSet(params, "genre", filters.genre);
    params := AppendIfSet(params, "book", filters.book);
    params := AppendIfSet(params, "sort", filters.sort);
    request := HttpGet("/feed", params, true);
  }

  /** `VALID_GENRES`. */
  const ValidGenres: seq<string> := [
    "Fiction", "Non-Fiction", "Mystery", "Romance", "Science Fiction", "Fantasy", "Biography",
    "History", "Self-Help", "Poetry", "Thriller", "Horror", "Adventure", "Other"
  ]

  // ---------------------------------------------------------------- lemmas

  lemma {:induction false} LookupAppend(a: seq<Param>, b: seq<Param>, key: string)
    ensures Lookup(a + b, key) == if Lookup(a, key).Some? then Lookup(a, key) else Lookup(b, key)
  {
    if a == [] {
      assert a + b == b;
    } else {
      assert (a + b)[1..] == a[1..] + b;
      LookupAppend(a[1..], b, key);
    }
  }

  /** Each filter is in the optional part exactly when it is non-empty, with
      its value unchanged; `page` and `limit` never are. */
  lemma OptionalParamsLookup(f: SearchFilters, key: string)
    ensures IsFilterKey(key) ==>
      Lookup(OptionalParams(f), key) == if FilterValue(f, key) != "" then Some(FilterValue(f, key)) else None
    ensures !IsFilterKey(key) ==> Lookup(OptionalParams(f), key) == None
  {
    var s, g, b, t := IfSet("search", f.search), IfSet("genre", f.genre), IfSet("book", f.book), IfSet("sort", f.sort);
    LookupAppend(s, g, key);
    LookupAppend(s + g, b, key);
    LookupAppend(s + g + b, t, key);
  }

  /** The optional part lists its keys in the order search, genre, book,
      sort, so no key appears twice. */
  lemma OptionalParamsOrdered(f: SearchFilters)
    ensures RankedWithin(OptionalParams(f), 2, 5)
  {
    var s, g, b, t := IfSet("search", f.search), IfSet("genre", f.genre), IfSet("book", f.book), IfSet("sort", f.sort);
    RankedAppend(s, g, 2, 2, 3, 3);
    RankedAppend(s + g, b, 2, 3, 4, 4);
    RankedAppend(s + g + b, t, 2, 4, 5, 5);
  }

  /** The keys of `q` have strictly increasing ranks, all within lo..hi. */
  predicate RankedWithin(q: seq<Param>, lo: nat, hi: nat) {
    (forall i :: 0 <= i < |q| ==> lo <= KeyRank(q[i].key) <= hi)
    && (forall i, j :: 0 <= i < j < |q| ==> KeyRank(q[i].key) < KeyRank(q[j].key))
  }

  lemma RankedAppend(a: seq<Param>, b: seq<Param>, lo: nat, mid: nat, mid': nat, hi: nat)
    requires RankedWithin(a, lo, mid) && RankedWithin(b, mid', hi) && lo <= mid < mid' <= hi
    ensures RankedWithin(a + b, lo, hi)
  {
    forall i | 0 <= i < |a + b|
      ensures lo <= KeyRank((a + b)[i].key) <= hi
    {
      if i >= |a| { assert (a + b)[i] == b[i - |a|]; } else { assert (a + b)[i] == a[i]; }
    }
    assert forall i :: |a| <= i < |a + b| ==> (a + b)[i] == b[i - |a|];
  }

  /** The query starts with `page` and then `limit`, each rendered in decimal
      (1 and 10 when omitted), and each filter appears exactly when it is
      non-empty, with its value unchanged. */
  lemma FeedQueryLookup(page: Option<int>, limit: Option<int>, f: SearchFilters, key: string)
    ensures |FeedQuery(page, limit, f)| >= 2
    ensures FeedQuery(page, limit, f)[0].key == "page" && FeedQuery(page, limit, f)[1].key == "limit"
    ensures ParseDecimal(FeedQuery(page, limit, f)[0].value) == Some(page.GetOr(1))
    ensures ParseDecimal(FeedQuery(page, limit, f)[1].value) == Some(limit.GetOr(10))
    ensures IsFilterKey(key) ==>
      Lookup(FeedQuery(page, limit, f), key) == if FilterValue(f, key) != "" then Some(FilterValue(f, key)) else None
  {
    IntToDecimalRoundTrip(page.GetOr(1));
    IntToDecimalRoundTrip(limit.GetOr(10));
    var head := FeedQuery(page, limit, f)[..2];
    assert FeedQuery(page, limit, f) == head + OptionalParams(f);
    LookupAppend(head, OptionalParams(f), key);
    OptionalParamsLookup(f, key);
  }

  /** The keys of the query come in the fixed order page, limit, search,
      genre, book, sort; in particular no key appears twice. */
  lemma FeedQueryOrdered(page: Option<int>, limit: Option<int>, f: SearchFilters)
    ensures forall i, j :: 0 <= i < j < |FeedQuery(page, limit, f)| ==>
      KeyRank(FeedQuery(page, limit, f)[i].key) < KeyRank(FeedQuery(page, limit, f)[j].key)
    ensures forall i, j :: 0 <= i < j < |FeedQuery(page, limit, f)| ==>
      FeedQuery(page, limit, f)[i].key != FeedQuery(page, limit, f)[j].key
  {
    var q := FeedQuery(page, limit, f);
    var o := OptionalParams(f);
    OptionalParamsOrdered(f);
    assert forall i :: 2 <= i < |q| ==> q[i] == o[i - 2];
  }

  /** `VALID_GENRES` lists fourteen different labels. */
  lemma ValidGenresDistinct()
    ensures |ValidGenres| == 14
    ensures forall i, j :: 0 <= i < j < |ValidGenres| ==> ValidGenres[i] != ValidGenres[j]
  {
  }
}
