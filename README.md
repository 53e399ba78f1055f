# BookConnect reader-matching feed: a Dafny model

BookConnect is a browser client for a social app for readers. Users browse a
feed of candidate readers one card at a time, filter it, pick favorite
genres and books, and chat with their connections. Most of the client is view
markup. This project models the list and record logic around the feed and
the profile and chat views, and proves properties of it:

- **Feed slice** (`FeedSlice`). This is the store's queue of candidate
  profiles, keyed by `_id`. Its reducers append, remove by identity and
  clear. They are pure functions on sequences.
- **Feed request** (`BookService`). `getFeed` turns a page, a page size and
  four optional filters into an ordered list of query pairs. `GetFeed` builds
  that list one conditional append at a time. The module also holds the fixed
  genre vocabulary.
- **Feed page controller** (`Feed`). This is a class. Its state is the
  filter record, the page counter, the current abort-controller token, the
  loading flags, the last filter key, the page URL and the feed slice, plus
  a snapshot of what the last render saw. Each React effect is a method that
  the caller invokes: initial load, filter-key reload, auto-pagination and
  URL sync. Like React's effects, these methods read the feed, loading flag
  and filters of the render that scheduled them, not the latest state. Each
  method's `modifies` clause names the fields it may change, so every other
  field is unchanged. An asynchronous load has two methods.
  `LoadFeed` is the part that runs when the load starts. `FinishLoad` is what
  happens when its response or error arrives.
- **Filter panel** (`FeedFilters`). Pure functions give the records that
  genre and sort changes, badge removal and the debounced commits hand to
  the page. They also give the active-filter count. The `FilterPanel` class
  holds the local search and book text. It sends each event to a
  `FeedController`. Genre, sort and badge events read the page's rendered
  filters, which are the panel's `filters` prop. A debounce timer firing is
  an explicit event. Each debounce effect re-runs only when its own local
  text changes, so each timer commits against the `filters` prop it
  captured then. The class keeps those captured filters, one record per
  timer. A genre or sort pick made while a timer is pending is therefore
  overwritten when the timer fires (`FeedFilters.GenrePickInsideSearchWindowIsLost`).
- **Favorite genres** (`FavoriteGenres`). This covers the initial selection,
  toggling a genre, and the "unsaved changes" test. That test sorts copies of
  both lists and compares them. `StringOrder` models the sort:
  lexicographic order, insertion sort, and proofs that the result is sorted,
  is a permutation, and is the only sorted permutation.
- **Favorite books** (`FavoriteBooks`). This covers the checks before a book
  is added (required title, then a case-insensitive duplicate test), the
  trimmed submission and the form after success.
- **Chat** (`Chat`). Pure functions normalise the stored history, pick the
  other participant's name and decide whether a message is drawn as one's
  own. The `ChatView` class holds the message list. The list is replaced by
  the history and then grows by one message per received event. The class
  also holds the send guard.

`Text` models `trim`, `toLowerCase` and integer `toString`. A rendered
integer is shown to parse back to the same value. `Wrappers` holds
`Option`, `Result` and `ListField`. A `ListField` is a server field that
should hold an array. It may instead hold a falsy value (missing, `null`,
`false`, `0`, `""`), a string, or another value that cannot be spread.

Where the code and the intended design disagree, the model follows the code:

- `addFeed` does not deduplicate (`FeedSlice.AddFeedKeepsDuplicates`).
- The abort signal is passed to `getFeed` as a fourth argument that `getFeed`
  does not declare. The request therefore carries only `withCredentials`, and
  an older response that arrives late is still appended. Only the reset of
  the loading flags checks whether the load is still current
  (`Feed.FeedController.FinishLoad`, `Feed.SupersededResponseIsAppended`).
  A consequence: on mount, the initial-load effect and the filter-key effect
  both request page 1. When both answers arrive, the feed holds page 1 twice
  (`Feed.MountLoadsFirstPageTwice`). If the store still holds one or two
  profiles at mount, the auto-load effect of that first render also fires
  and requests page 2 (`Feed.MountWithShortQueueAlsoLoadsPageTwo`). A filter
  change clears the feed once, but loads still out for the old filters are
  appended to the new feed when they answer, in arrival order: before the
  new page if they answer first, after it if they answer later
  (`Feed.StaleAnswersAfterFilterChange`, `Feed.StaleAnswersAroundNewPage`).
- A feed decision or a request review removes the entry only after its POST
  has succeeded (src/Components/UserCard.jsx:22-27,
  src/Components/Requests.jsx:13-18). The removal is not optimistic and has
  no rollback. Those components are not part of this model. The removal
  `UserCard` dispatches is `FeedSlice.RemoveUserFromFeed`; `Requests`
  dispatches the requests slice's `removeRequest`, which is not modelled.
- The filter key `search|genre|book|sort` changes whenever exactly one
  filter changes. It is not injective, though: two values containing `|` can
  change together and keep the key, and then no reload happens
  (`Feed.FilterKeyCollision`).
- The duplicate-book test compares the title as typed, but the title that
  is sent is trimmed. A padded copy of a saved title therefore passes the
  test and is sent as the saved title (`FavoriteBooks.PaddedDuplicateIsSent`).
- A saved `favoriteGenres` that is a non-empty string is not taken as the
  selection, but `hasChanges` spreads it into its characters. The save
  control therefore shows straight after load (`FavoriteGenres.ChangesAfterLoad`).
- Whether a chat message is drawn as one's own depends only on its first
  name (`Chat.NamesakeDrawnAsOwn`).

## Model

| member | source | states |
|---|---|---|
| `FeedSlice.AddFeed` | src/utils/feedSlice.js:7-10 | the result is the old feed followed by the payload, both in their original order; its length is the sum of the two lengths |
| `FeedSlice.AddFeedOnMissingState` | src/utils/feedSlice.js:9 | a null or undefined prior state acts as the empty feed |
| `FeedSlice.AddFeedKeepsDuplicates` | src/utils/feedSlice.js:9 | there is no deduplication: appending a profile whose `_id` is already queued adds one more entry with that `_id`, so it is then present at least twice |
| `FeedSlice.WithoutId` | src/utils/feedSlice.js:12 | the filter leaves no entry with the `_id` and keeps every other entry; the result is an order-preserving subsequence, and its length is the old length minus the number of matching entries |
| `FeedSlice.RemoveUserFromFeed` | src/utils/feedSlice.js:11-14 | no entry with the `_id` remains; every entry with a different `_id` is kept, in the same relative order; a missing state acts as empty |
| `FeedSlice.RemoveAbsentIsIdentity` | src/utils/feedSlice.js:12 | removing an `_id` that is not queued leaves the feed unchanged |
| `FeedSlice.RemoveIdempotent` | src/utils/feedSlice.js:12 | removing the same `_id` twice gives the same feed as removing it once |
| `FeedSlice.ClearFeed` | src/utils/feedSlice.js:15-17 | the result is empty, whatever the prior state |
| `FeedSlice.ClearThenAddIsPage` | src/utils/feedSlice.js:7-17 | clearing and then appending a page leaves exactly that page |
| `BookService.AppendIfSet` | src/utils/bookService.js:44-47 | one conditional append adds the pair exactly when the value is non-empty |
| `BookService.GetFeed` | src/utils/bookService.js:37-54 | the request is a credentialed GET on `/feed` whose query is built pair by pair; it has no signal, so nothing beyond the three declared parameters reaches it |
| `BookService.FeedQueryLookup` | src/utils/bookService.js:37-47 | `FeedQuery`, the list `getFeed` builds: the query starts with `page` and then `limit`, and their decimal values read back as the page and limit given (1 and 10 when omitted); each of search, genre, book and sort is present exactly when non-empty, with its value unchanged |
| `BookService.FeedQueryOrdered` | src/utils/bookService.js:38-47 | in `FeedQuery`, the keys follow the fixed order page, limit, search, genre, book, sort, so no key appears twice |
| `BookService.OptionalParamsLookup` | src/utils/bookService.js:44-47 | `OptionalParams`, the conditional appends: the optional part holds each filter exactly when it is non-empty, with its value unchanged, and never holds `page` or `limit` |
| `BookService.OptionalParamsOrdered` | src/utils/bookService.js:44-47 | in `OptionalParams`, the optional keys are in the order search, genre, book, sort, each at most once |
| `BookService.ValidGenresDistinct` | src/utils/bookService.js:57-72 | `VALID_GENRES` lists 14 labels, all different |
| `Text.IntToDecimalRoundTrip` | src/utils/bookService.js:39-40 | the decimal string an integer is rendered to parses back to that integer |
| `Text.Trim` | src/Components/FavoriteBooks.jsx:24 | the result is the slice of the input left after cutting whitespace from both ends: what is cut is whitespace, and the result is empty exactly when the input is all whitespace, otherwise it neither starts nor ends with whitespace |
| `Text.ToLower` | src/Components/FavoriteBooks.jsx:31 | the length is kept, each capital A-Z becomes its small letter, every other character is kept, so no capital is left |
| `StringOrder.Sort` | src/Components/FavoriteGenres.jsx:59-60 | the sorted copy is in lexicographic order and is a permutation of the input |
| `StringOrder.SortEqualIffSameElements` | src/Components/FavoriteGenres.jsx:59-61 | two sorted copies are equal exactly when the lists hold the same strings the same number of times |
| `Feed.FeedData` | src/Components/Feed.jsx:48-49 | `response?.data \|\| response \|\| []`, kept only if it is an array: the profiles of a bare array or of an array under `data`, otherwise none |
| `Feed.ErrorText` | src/Components/Feed.jsx:55 | the server's message when there is a non-empty one, otherwise "Failed to load feed"; never empty |
| `Feed.Render` | src/Components/Feed.jsx:136-161 | the dots show exactly while loading with an empty feed; a card shows exactly when the feed is non-empty, and it is the head of the feed; the empty state suggests adjusting the filters exactly when search, genre or book is set, and offers "clear" exactly when any of the four filters is set |
| `Feed.FeedController.constructor` | src/Components/Feed.jsx:17-29 | the four text filters come from the URL (or "") and the page is 1; nothing is loading, no token is set and no key is recorded |
| `Feed.FeedController.Rerender` | src/Components/Feed.jsx:17-29 | a render records the current feed, loading flag and filters for the effects it schedules; nothing else changes |
| `Feed.FeedController.LoadFeed` | src/Components/Feed.jsx:32-47 | the start of a load: the previous controller is aborted, a new controller becomes current, loading is raised, the error is cleared, and the `getFeed` request for the page with size 10 is issued |
| `Feed.FeedController.FinishLoad` | src/Components/Feed.jsx:46-64 | a response is appended whether or not the load is still current; a failure sets the error text; loading and the token are cleared only when the load is still current; the invariant "loading exactly while a pending, unaborted load is current" is kept |
| `Feed.FeedController.InitialLoadEffect` | src/Components/Feed.jsx:68-70 | on mount, page 1 is loaded with the rendered filters: a new current controller, the previous one aborted, loading raised, the error cleared; nothing else changes |
| `Feed.FeedController.FilterKeyEffect` | src/Components/Feed.jsx:73-81 | it reloads exactly when the rendered filters' key differs from the recorded one; it then records the key, clears the feed and starts a load of page 1 with those filters; otherwise no field changes |
| `Feed.FeedController.AutoLoadEffect` | src/Components/Feed.jsx:84-90 | it fires exactly when the render saw 1 to 2 cards and was not loading; it then starts a load of the rendered page plus one and raises the live page counter by exactly one; otherwise no field changes |
| `Feed.FeedController.UrlSyncEffect` | src/Components/Feed.jsx:93-100 | the URL query becomes exactly the non-empty rendered text filters, set in order; no other field changes |
| `Feed.FeedController.HandleFiltersChange` | src/Components/Feed.jsx:102-108 | the feed is cleared and the new filters are stored with page 1, whatever page they carried; loads in flight, the error and the recorded key are untouched |
| `Feed.FeedController.HandleClearFilters` | src/Components/Feed.jsx:110-120 | the feed is cleared, the four text filters become "" and the page 1, and the recorded key is forgotten; loads in flight and the error are untouched |
| `Feed.SupersededResponseIsAppended` | src/Components/Feed.jsx:32-64 | when two loads answer newest first, both pages end up in the feed, and loading is off once the current load has answered |
| `Feed.MountLoadsFirstPageTwice` | src/Components/Feed.jsx:67-81 | `Mount` runs the first render's two effects (initial load, then the filter-key reload): two identical page-1 requests are issued; once both answer, the feed holds that page twice |
| `Feed.MountWithShortQueue` | src/Components/Feed.jsx:67-90 | with one or two profiles in the store, the first render's effects issue page 1 twice and page 2 once, and the page counter ends at 2 |
| `Feed.MountWithShortQueueAlsoLoadsPageTwo` | src/Components/Feed.jsx:67-90 | once those three loads answer in order, the feed holds page 1 twice followed by page 2 |
| `Feed.StaleAnswersAfterFilterChange` | src/Components/Feed.jsx:32-108 | after a filter change during the mount loads (`ChangeFiltersDuringMount`), the new filters are requested; when the new page answers first, both answers for the old filters are appended after it; loading ends |
| `Feed.StaleAnswersAroundNewPage` | src/Components/Feed.jsx:32-108 | in the other arrival order, an old-filter answer that arrives before the new page lands in front of it and one that arrives later follows it; loading ends |
| `Feed.FilterKeyIgnoresPage` | src/Components/Feed.jsx:74 | `FilterKey`, the `search\|genre\|book\|sort` string: a change to the page alone never changes the key |
| `Feed.FilterKeyDetectsSingleChange` | src/Components/Feed.jsx:74-80 | for `FilterKey`, a change to exactly one of the four text filters always changes the key |
| `Feed.FilterKeyCollision` | src/Components/Feed.jsx:74-76 | `FilterKey` is not injective: two filter records that differ in two fields can share a key |
| `Feed.UrlParamsExact` | src/Components/Feed.jsx:93-100 | `UrlParams`, the query the sync effect writes: the URL query holds a key exactly when it is a non-empty text filter, with its value, in the order search, genre, book, sort; it never holds the page |
| `Feed.UrlRoundTrip` | src/Components/Feed.jsx:19-25 | `InitialFilters`, the filters read from the URL: opening the URL that the sync effect wrote gives back the same text filters, on page 1 |
| `FeedFilters.SearchCommit` | src/Components/FeedFilters.jsx:10-15 | when the debounce fires, it emits something exactly when the local text differs from the committed search; what it emits is the filters with that search and page 1, and its key differs from the old one |
| `FeedFilters.BookCommit` | src/Components/FeedFilters.jsx:21-26 | the same rule for the book text |
| `FeedFilters.ActiveFilterCount` | src/Components/FeedFilters.jsx:45-50 | the count is the number of non-empty filters among search, genre, book and sort, which is exactly the number of pairs in the URL query; hence it is at most 4, 0 exactly when all four are empty and 4 exactly when all are set |
| `FeedFilters.GenreChangeReloadsIffChanged` | src/Components/FeedFilters.jsx:31-33 | `GenreChange`, the record `handleGenreChange` emits: a genre change replaces only the genre and sets page 1; it changes the key exactly when the genre really changed |
| `FeedFilters.SortChangeReloadsIffChanged` | src/Components/FeedFilters.jsx:35-37 | `SortChange`, the record `handleSortChange` emits: a sort change replaces only the sort and sets page 1; it changes the key exactly when the sort really changed |
| `FeedFilters.RemoveBadgeDropsOneFilter` | src/Components/FeedFilters.jsx:180-211 | `RemoveGenreBadge` and `RemoveSortBadge`, the records the badges' close buttons emit: closing the genre or sort badge empties that field, keeps the others, sets page 1, lowers the active count by one and changes the key |
| `FeedFilters.FilterPanel.constructor` | src/Components/FeedFilters.jsx:5-29 | the local search and book text start from the committed filters, and the timers armed on mount capture those filters |
| `FeedFilters.FilterPanel.TypeSearch` | src/Components/FeedFilters.jsx:9-18 | a keystroke, or the search badge's close button, sets the local search text; a new text re-arms the search timer with the page's rendered filters, the same text leaves the armed timer's filters alone; nothing else changes |
| `FeedFilters.FilterPanel.TypeBook` | src/Components/FeedFilters.jsx:20-29 | the same for the book text and the book timer |
| `FeedFilters.FilterPanel.SearchTimerFires` | src/Components/FeedFilters.jsx:10-18 | exactly when the local text differs from the search of the filters the timer captured, the page takes those captured filters with the new search and page 1, and its feed is cleared; otherwise the page is untouched; only the page's feed and filters can change |
| `FeedFilters.FilterPanel.BookTimerFires` | src/Components/FeedFilters.jsx:21-29 | the same rule for the book text, against the filters the book timer captured |
| `FeedFilters.GenrePickInsideSearchWindowIsLost` | src/Components/FeedFilters.jsx:10-33 | a genre picked while the search timer is pending is undone when it fires: the committed filters carry the new search, page 1 and the genre from before the pick |
| `FeedFilters.FilterPanel.SelectGenre` | src/Components/FeedFilters.jsx:31-33 | the page takes the genre-changed rendered filters and clears its feed; nothing else on the page changes |
| `FeedFilters.FilterPanel.SelectSort` | src/Components/FeedFilters.jsx:35-37 | the page takes the sort-changed rendered filters and clears its feed; nothing else on the page changes |
| `FeedFilters.FilterPanel.ClearAll` | src/Components/FeedFilters.jsx:39-43 | both local texts become "", and a timer whose text changed is re-armed with the empty filters; then the page clears its filters, its feed and its recorded key; nothing else on the page changes |
| `FavoriteGenres.RemoveAll` | src/Components/FavoriteGenres.jsx:26 | every occurrence of the genre goes; every other element stays, with its count and in order |
| `FavoriteGenres.Toggle` | src/Components/FavoriteGenres.jsx:23-31 | the membership of that genre flips and every other genre's membership is kept; a selected genre is removed entirely, with the rest kept in order; an unselected one is appended at the end |
| `FavoriteGenres.ToggleKeepsNoDuplicates` | src/Components/FavoriteGenres.jsx:23-31 | toggling keeps a duplicate-free selection duplicate-free |
| `FavoriteGenres.ToggleTwiceSameElements` | src/Components/FavoriteGenres.jsx:23-31 | toggling the same genre twice restores a duplicate-free selection as a collection, so `hasChanges` is the same as before |
| `FavoriteGenres.ToggleTwiceMovesGenreLast` | src/Components/FavoriteGenres.jsx:25-28 | the order is not restored: the genre comes back at the end |
| `FavoriteGenres.HasChangesIffDifferentElements` | src/Components/FavoriteGenres.jsx:57-66 | `HasChanges`: `hasChanges`, and with it the save control, holds exactly when the selection and the saved list differ as multisets; a falsy saved value counts as empty, a saved string is compared as the list of its characters, and any other non-list value gives "no changes" through the caught error |
| `FavoriteGenres.InitialSelection` | src/Components/FavoriteGenres.jsx:15-21 | the selection starts as the saved genres when they are an array, and empty for a missing, falsy, string or other value |
| `FavoriteGenres.ChangesAfterLoad` | src/Components/FavoriteGenres.jsx:15-21 | right after the user record arrives there is nothing to save, except when the saved value is a non-empty string: the selection starts empty and the save control shows |
| `FavoriteBooks.FavoriteBooksOf` | src/Components/FavoriteBooks.jsx:15 | the saved books when they are an array, otherwise none |
| `FavoriteBooks.ValidateAddBook` | src/Components/FavoriteBooks.jsx:24-44 | a blank title gives "Book title is required"; otherwise a title equal to a saved one up to case gives "This book is already in your favorites"; otherwise the trimmed title and author are sent, and that title is non-empty and unpadded |
| `FavoriteBooks.Submit` | src/Components/FavoriteBooks.jsx:15-44 | the checks run against the saved books as `FavoriteBooksOf` reads them; a refused title only sets the error and sends nothing; an accepted one clears the messages, starts loading and sends the trimmed submission |
| `FavoriteBooks.NonArrayFavoritesHaveNoDuplicates` | src/Components/FavoriteBooks.jsx:15-44 | when the saved `favoriteBooks` is not an array, no title is refused as a duplicate: a title is refused exactly when it is blank, and every other title is sent trimmed |
| `FavoriteBooks.AddSucceeded` | src/Components/FavoriteBooks.jsx:50-56 | after success both fields are "", the form is hidden, the success message shows and loading is over |
| `FavoriteBooks.BlankCheckedBeforeDuplicate` | src/Components/FavoriteBooks.jsx:24-37 | a blank title that also matches a saved title is refused as blank |
| `FavoriteBooks.DuplicateIgnoresCase` | src/Components/FavoriteBooks.jsx:30-37 | "DUNE" is refused as a duplicate of a saved "Dune" |
| `FavoriteBooks.ToLowerEqualIffEqualUpToCase` | src/Components/FavoriteBooks.jsx:31 | two titles lower-case to the same string exactly when they agree letter by letter up to ASCII case |
| `FavoriteBooks.DuplicateTestIgnoresCase` | src/Components/FavoriteBooks.jsx:30-32 | `IsDuplicate`, the `some` over saved titles: for any saved books, two titles that agree up to case are both duplicates or both not |
| `FavoriteBooks.PaddedDuplicateIsSent` | src/Components/FavoriteBooks.jsx:30-44 | " Dune" passes the untrimmed duplicate test against "Dune" and is sent as "Dune" |
| `Chat.FromStored` | src/Components/Chat.jsx:37-43 | the text is kept; the sender id and names are taken from the populated sender, or are undefined when it is null |
| `Chat.Backfill` | src/Components/Chat.jsx:36-45 | one view message per stored message, in the same order |
| `Chat.FirstOther` | src/Components/Chat.jsx:49-51 | the position of the first message whose sender is not the user, or none exactly when every message is the user's |
| `Chat.TargetUser` | src/Components/Chat.jsx:47-58 | the name on the first message from someone else; there is none exactly when the list is empty or every message is the user's |
| `Chat.CountLabel` | src/Components/Chat.jsx:149 | the label starts with the count in decimal and ends in "s" exactly when the count is not 1 |
| `Chat.OwnMessageIgnoresSenderId` | src/Components/Chat.jsx:186 | `IsOwnMessage`: a message is drawn as one's own exactly when its first name is the user's; its sender id plays no part |
| `Chat.NamesakeDrawnAsOwn` | src/Components/Chat.jsx:186 | a message from another user with the same first name is drawn as one's own |
| `Chat.ChatView.constructor` | src/Components/Chat.jsx:13-16 | the view opens with no messages, an empty input, loading on and no target name |
| `Chat.ChatView.ApplyBackfill` | src/Components/Chat.jsx:29-64 | on success the list becomes the normalised history, and the target name is taken from it when someone else wrote (otherwise the old name stays); on failure only loading changes |
| `Chat.ChatView.MessageReceived` | src/Components/Chat.jsx:82-87 | exactly one message is appended at the end; earlier messages are unchanged |
| `Chat.ChatView.Type` | src/Components/Chat.jsx:233 | typing changes only the input |
| `Chat.ChatView.SendMessage` | src/Components/Chat.jsx:94-107 | blank text is never sent and leaves the input alone; other text is emitted as typed with the user's name and the input is cleared; the message list is not changed |

## Left out

- All HTTP calls, cookies and `BASE_URL`. Server answers are method inputs
  (`FeedController.FinishLoad`, `ChatView.ApplyBackfill`). Requests are
  values (`BookService.HttpGet`).
- Turning a query into a string (`URLSearchParams.toString`, the
  application/x-www-form-urlencoded serializer of section 5.2 of the WHATWG
  URL Standard). Queries are ordered key/value pairs.
- React scheduling. Each effect and each debounce timer firing is a method
  the caller invokes. The 500 ms delay and the clearing of a pending timer
  are not modelled: the caller fires a timer only when React would, that is
  when no new text was typed into that box for 500 ms. The toast timeouts
  are not modelled.
- The socket.io channel: connecting, `joinChat`, disconnecting, and the new
  connection that `sendMessage` opens on every send. Only the emitted
  payload and the received messages are modelled.
- The `fetchChatMessages` case where the answer has no `data` at all. There,
  `setMessages(undefined)` runs before the error, and the view breaks. The
  model treats every malformed answer as a caught error.
- The Redux store beyond the feed slice (user, requests and connections
  slices). The feed slice is a field of `FeedController`.
- `UserCard`, `Requests` and `Connections`. They are thin wrappers around
  HTTP; their removal happens only after a successful POST.
- The error path of adding a favorite book, the removal of a favorite book
  (including `window.confirm`), and saving genres. These are remote calls and
  setter calls only.
- Layout, animation, routing, and the landing, login, profile-edit, navbar
  and footer views.
- Text.Trim: only ASCII whitespace (space, tab, line feed, vertical tab, form
  feed, carriage return) is removed. JavaScript's `trim` also removes
  Unicode spaces and line terminators.
- Text.ToLower: only ASCII letters are lowered. JavaScript's
  `toLowerCase` applies full Unicode case mapping.
- StringOrder.Sort: the order compares characters as code points.
  JavaScript compares UTF-16 code units. The two differ only for characters
  outside the Basic Multilingual Plane.
- A missing (`undefined`) filter value is modelled as "". Both are falsy
  where the code tests them.
- Feed.LoadOutcome: the `Cancelled` outcome is modelled for the catch
  branch at src/Components/Feed.jsx:51-54. No request in this model carries
  a signal, so that branch cannot be reached from an abort.
