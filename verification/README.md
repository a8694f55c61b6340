# streamly list logic in Dafny

A model of the list logic of the streamly movie/TV browser, with proofs.
Two pieces of the frontend are modelled:

- **The media grid** (`app/_components/MediaGrid.tsx`). It is an infinitely
  scrolling list of movies or series that can be filtered by genre. The
  component's state variables become the fields of the class
  `MediaGrid.Controller`: `items`, `genres`, `genreMap`, `selectedGenre`,
  `page`, `totalPages`, `loading` and `initialLoading`. Each event the
  component reacts to is a method:
  - the genre taxonomy arriving (`LoadGenres`, which fills the map with the
    loop `BuildGenreMap`);
  - a fetch starting (`StartFetch`), then completing or failing
    (`CompleteFetch`, `FailFetch`);
  - the genre-change effect (`ResetForGenre`) and the genre select
    (`SelectGenre`);
  - the scroll sentinel becoming visible (`NearEnd`);
  - the page-change effect (`PageEffect`).

  Payloads are parameters. A fetch is split into a start and a completion,
  so any other event can happen while a fetch is in flight. The
  genre-name lookup, the genre query fragment and the end-indicator
  condition are functions.
- **The movies page** (`app/movies/page.tsx`). It filters a fixed movie list
  by a genre chosen from the page's own genre table and shows it in pages of
  twenty. The filter, the page count and the page slice are functions. The
  slice follows the clamping rules of JavaScript's `Array.prototype.slice`.
  The two state updates, toggling a genre and `goToPage`, are methods of
  `MoviesPage.MoviesPageState`. Each is specified by a step function on a
  `PageState` value. A lemma over any sequence of such steps shows that the
  current page stays in range.

The record shapes of `app/_types/index.ts` are datatypes in module `Types`.
They keep only the id, the genre ids and the title field. `MediaItem` is a
tagged union of a movie and a series.

### Behaviour of the code worth knowing

The model follows the code as written, including where it is weaker than an infinite list would ideally be.

- The code has no stale-response check. A completing fetch is applied
  whatever the selected genre is by then. `MediaGrid.StaleAppendIsKept` shows
  an appending fetch started under "all" that lands after the new genre's
  reset. Its items end up after the new genre's items.
- The page number is incremented before its fetch starts. A failed page is
  therefore skipped, not retried (`MediaGrid.FailedPageIsSkipped`).
- A genre change does not empty `items` at once. The old items stay until
  the reset fetch completes, and `initialLoading` hides them in the meantime.
- The sentinel guard tests only `loading`, not `initialLoading`. Once a
  fetch has started, `initialLoading` implies `loading`
  (`MediaGrid.Controller.LoadingFlagsAgree`): every method that sets
  `initialLoading` also sets `loading`, and every method that clears
  `loading` also clears `initialLoading`. The state on mount is the one
  exception: `initialLoading` is set and `loading` is not.
- On the movies page, selecting a genre twice gives back the earlier
  selection only when that selection was no filter or the same genre. From
  another genre, two clicks end with no filter (`MoviesPage.ToggleGenreTwice`).

## Model

A definition that has no contract of its own is named, in parentheses, in
the row of the member whose contract is about it.

| member | source | states |
|---|---|---|
| `MediaGrid.RecordedTotalPages` | app/_components/MediaGrid.tsx:77 | the recorded page count is the reported `total_pages`, or 1 when that is missing or 0; it is never 0 |
| `MediaGrid.GenreQuery` | app/_components/MediaGrid.tsx:63-64 | the genre fragment is non-empty exactly when the selection is not "all"; it is then the `&with_genres=` parameter followed by the selection |
| `MediaGrid.GenreMapOfKeys` | app/_components/MediaGrid.tsx:45-46 | (`MediaGrid.GenreMapOf` models the `forEach` assignments) the map built from a genre list has exactly the listed ids as keys |
| `MediaGrid.GenreMapOfLastWins` | app/_components/MediaGrid.tsx:45-46 | (about `MediaGrid.GenreMapOf`) a listed id maps to the name of its last occurrence in the list, so a later duplicate wins |
| `MediaGrid.BuildGenreMap` | app/_components/MediaGrid.tsx:45-46 | the loop over the genre list yields the map whose keys are the listed ids and in which each id has the name of its last occurrence |
| `MediaGrid.ResolveGenreName` | app/_components/MediaGrid.tsx:186 | a genre id resolves to its mapped name; an unmapped id, or one mapped to the empty string, gives "Unknown"; the result is never empty |
| `MediaGrid.GenreNames` | app/_components/MediaGrid.tsx:185-187 | a card's genre names are as many as its genre ids, each the resolved name of the id at the same position |
| `MediaGrid.EndIndicatorStopsAdvance` | app/_components/MediaGrid.tsx:234 | (`MediaGrid.EndIndicatorShown` models line 234, `MediaGrid.NearEndAdvances` the guard at line 99) while the "seen all" indicator shows, the sentinel cannot advance the page; when no fetch is loading, items exist and the sentinel cannot advance, the indicator shows |
| `MediaGrid.Controller.constructor` | app/_components/MediaGrid.tsx:24-31 | the grid starts with no items, no genres, "all" selected, page 1 of 1, not loading, initial loading shown (the one state where `LoadingFlagsAgree` fails) |
| `MediaGrid.Controller.LoadGenres` | app/_components/MediaGrid.tsx:43-48 | a taxonomy whose `genres` is an array replaces the genre list and rebuilds the map from it; otherwise both stay as they were |
| `MediaGrid.Controller.StartFetch` | app/_components/MediaGrid.tsx:59-64 | starting a fetch sets `loading`; a reset fetch also sets `initialLoading`; the request carries the page, the reset flag and the genre fragment of the current selection; afterwards `LoadingFlagsAgree` holds |
| `MediaGrid.Controller.CompleteFetch` | app/_components/MediaGrid.tsx:70-83 | (`MediaGrid.PayloadItems` models lines 72-75) a reset replaces the items by the payload's results (none when they are not an array); any other fetch appends them after the existing items; `totalPages` becomes the recorded count; both flags clear; page ≥ 1 and `totalPages` ≠ 0 are kept |
| `MediaGrid.Controller.FailFetch` | app/_components/MediaGrid.tsx:78-83 | a failed fetch leaves items and page count unchanged and clears both loading flags |
| `MediaGrid.Controller.ResetForGenre` | app/_components/MediaGrid.tsx:89-92 | the genre-change effect sets the page to 1 and issues a reset fetch of page 1 with the current genre fragment |
| `MediaGrid.Controller.SelectGenre` | app/_components/MediaGrid.tsx:157-160 | choosing a different genre records it and runs the genre-change effect; choosing the current one issues nothing and changes nothing |
| `MediaGrid.Controller.NearEnd` | app/_components/MediaGrid.tsx:97-101 | (guard: `MediaGrid.NearEndAdvances`) the sentinel advances the page by exactly 1 when it intersects, nothing is loading and page < `totalPages`; otherwise the page is unchanged; a page within `totalPages` stays within it |
| `MediaGrid.Controller.PageEffect` | app/_components/MediaGrid.tsx:115-119 | a page change issues an appending fetch of that page exactly when the page is above 1 |
| `MediaGrid.ScrollThroughThreePages` | app/_components/MediaGrid.tsx:57-119 | with three reported pages, mount and two sentinel events show the three pages in order; afterwards no page remains, the sentinel does nothing and the end indicator shows |
| `MediaGrid.SentinelWhileLoading` | app/_components/MediaGrid.tsx:99-101 | while the page-2 fetch is in flight, any number of sentinel events leave the page at 2 |
| `MediaGrid.FailedPageIsSkipped` | app/_components/MediaGrid.tsx:99-119 | after page 2 fails, the next sentinel event requests page 3, and the items are pages 1 and 3 |
| `MediaGrid.StaleAppendIsKept` | app/_components/MediaGrid.tsx:70-76 | an appending fetch from before a genre change, completing after the new reset, is appended to the new genre's items |
| `MoviesPage.FilterByGenre` | app/movies/page.tsx:28-30 | the filtered list holds exactly the movies that have a genre id the table maps to the selected name, and is no longer than the list |
| `MoviesPage.FilterByGenreAppend` | app/movies/page.tsx:28-30 | filtering distributes over concatenation, so the kept movies stay in their original order |
| `MoviesPage.FilterByGenreKeepsAll` | app/movies/page.tsx:28-30 | a list whose movies all carry the genre is returned unchanged |
| `MoviesPage.FilteredMovies` | app/movies/page.tsx:26-34 | with no genre selected the whole list is shown; with a genre selected, exactly the movies carrying it |
| `MoviesPage.PageCount` | app/movies/page.tsx:36 | the page count is the fewest 20-movie pages that hold the list, and 0 exactly for an empty list |
| `MoviesPage.Paginate` | app/movies/page.tsx:38-41 | (over `MoviesPage.JsSlice` and `MoviesPage.ClampIndex`, JavaScript's slice) a page has at most 20 movies; page p ≥ 1 holds the movies at indices [(p-1)·20, p·20), cut at the list's end |
| `MoviesPage.PagesUpToIsPrefix` | app/movies/page.tsx:38-41 | pages 1 to k together are the first 20·k movies (or the whole list) |
| `MoviesPage.PagesCoverList` | app/movies/page.tsx:36-41 | pages 1 to the page count, read in order, give back the whole filtered list |
| `MoviesPage.PageNonEmptyExactlyInRange` | app/movies/page.tsx:36-41 | a page p ≥ 1 is non-empty exactly when p is at most the page count |
| `MoviesPage.PageInRangeShowsSomething` | app/movies/page.tsx:36-41 | on a page between 1 and max(1, page count), the page shown is non-empty exactly when the list is |
| `MoviesPage.PageNumbers` | app/movies/page.tsx:99-100 | the page buttons are numbered 1 to the page count, in order |
| `MoviesPage.ToggleGenreTwice` | app/movies/page.tsx:43-46 | (`MoviesPage.ToggleGenre` models line 44) a click selects its genre unless it is the selected one, which it clears; two clicks on one genre restore no filter or that genre, and end with no filter when another genre was selected |
| `MoviesPage.GoToKeepsRange` | app/movies/page.tsx:48-52 | (`MoviesPage.GoTo` models lines 49-51) `goToPage(p)` keeps the page within 1 and the page count (or 1), and lands on p exactly when 1 ≤ p ≤ page count (or p is already current) |
| `MoviesPage.PrevClickMovesBack` | app/movies/page.tsx:91-93 | (`MoviesPage.PrevDisabled` models line 93) when Prev is enabled (page ≠ 1), clicking it moves back exactly one page |
| `MoviesPage.NextClickMovesForward` | app/movies/page.tsx:116-118 | (`MoviesPage.NextDisabled` models line 118) when Next is enabled (page ≠ page count), clicking it moves forward one page, except on an empty list, where the click changes nothing |
| `MoviesPage.RunKeepsPageInRange` | app/movies/page.tsx:43-52 | (over `MoviesPage.Step` and `MoviesPage.Run`) from a page in range, any sequence of genre clicks and page requests keeps 1 ≤ page ≤ max(1, page count) |
| `MoviesPage.MoviesPageState.constructor` | app/movies/page.tsx:23-24 | the page starts with no genre selected on page 1, and the page shown is non-empty exactly when the filtered list is |
| `MoviesPage.MoviesPageState.HandleGenreSelect` | app/movies/page.tsx:43-46 | a genre click toggles the selection and resets the page to 1, keeping the page in range; the page shown is non-empty exactly when the filtered list is |
| `MoviesPage.MoviesPageState.GoToPage` | app/movies/page.tsx:48-52 | the page changes to p only when 1 ≤ p ≤ page count; otherwise it stays; the page stays in range, and the page shown is non-empty exactly when the filtered list is |

## Left out

- Network I/O and JSON parsing are not modelled: the `fetch` and `res.json()` calls, the API key and the request URLs. Taxonomy and list payloads are method parameters, and a thrown fetch is the `FailFetch` event.
- React scheduling is not modelled. Each effect and callback is an event the caller invokes. One consequence is missed: the page effect lists `fetchItems` among its dependencies, so it also re-runs after a genre change, with the page number of that render.
- Interleavings of async completions are not restricted. Any completion may follow any event, and the code has no check that would reject a stale one.
- `MediaGrid.CompleteFetch`: a `results` that is truthy but not an array, in an appending fetch, counts as no items. In JavaScript the spread either throws or spreads the value's characters.
- `MediaGrid.RecordedTotalPages`: a `total_pages` that is not a number is not modelled. The count is an optional integer, and any non-zero value, negative included, is taken as is.
- The `IntersectionObserver` registration, `loaderRef` and the threshold are not modelled. The observer callback is the `NearEnd` event, with its `isIntersecting` flag as a parameter.
- The mapping from a genre id to the select's string value (`String(g.id)`) is not modelled, and neither is the "Filtered by" label. The selected genre is an opaque string.
- Rendering is not modelled: the skeleton cards, the empty states, the item count text, the "Loading more" indicator, the card titles and the cards' genre names on the movies page.
- The movies page's movie list comes from `app/_data/data`, which is not part of this model. It is a parameter.
- The presentation-only components are not part of this model: Header, ThemeToggle, Carousel, HeroSlider, PrimaryButton, MovieCard, Trending, LatestMovies, LatestSeries, the layout, the home page, the TV page, the movie detail page and `app/_lib/tmdb.tsx`. So are the detail-page types in `app/_types/movie.ts`.
