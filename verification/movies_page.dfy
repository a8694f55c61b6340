/**
 * The client-side movie browser (app/movies/page.tsx): a fixed genre table,
 * a genre toggle that filters the movie list, and numbered pages of twenty
 * movies. The movie list is a module-level import in the page; here it is a
 * parameter.
 */
module MoviesPage {
  import opened Wrappers
  import opened Types

  /** How many movies one page shows. */
  const MoviesPerPage: nat := 20

  /** The page's own genre table: TMDb genre id to the name shown on its button. */
  const GenresMap: map<int, string> := map[
    28 := "Action",
    35 := "Comedy",
    18 := "Drama",
    27 := "Horror",
    10749 := "Romance",
    16 := "Animation",
    878 := "Sci-Fi",
    12 := "Adventure",
    80 := "Crime"
  ]

  function Min(a: int, b: int): int { if a <= b then a else b }
  function Max(a: int, b: int): int { if a >= b then a else b }

  /** Whether one of the movie's genre ids is mapped to `genre` by the page's table. */
  predicate HasGenreNamed(m: Movie, genre: string) {
    exists i :: 0 <= i < |m.genreIds| && m.genreIds[i] in GenresMap && GenresMap[m.genreIds[i]] == genre
  }

  /** The movies carrying `genre`, in list order. */
  function FilterByGenre(movies: seq<Movie>, genre: string): (r: seq<Movie>)
    ensures |r| <= |movies|
    ensures forall m :: m in r <==> m in movies && HasGenreNamed(m, genre)
  {
    if movies == [] then []
    else (if HasGenreNamed(movies[0], genre) then [movies[0]] else []) + FilterByGenre(movies[1..], genre)
  }

  /** Filtering distributes over concatenation, so it keeps the relative order of the movies it keeps. */
  lemma {:induction false} FilterByGenreAppend(a: seq<Movie>, b: seq<Movie>, genre: string)
    ensures FilterByGenre(a + b, genre) == FilterByGenre(a, genre) + FilterByGenre(b, genre)
  {
    if a != [] {
      assert (a + b)[0] == a[0];
      assert (a + b)[1..] == a[1..] + b;
      FilterByGenreAppend(a[1..], b, genre);
    } else {
      assert a + b == b;
    }
  }

  /** A list of movies that all carry the genre comes through the filter unchanged. */
  lemma {:induction false} FilterByGenreKeepsAll(movies: seq<Movie>, genre: string)
    requires forall i :: 0 <= i < |movies| ==> HasGenreNamed(movies[i], genre)
    ensures FilterByGenre(movies, genre) == movies
  {
    if movies != [] {
      FilterByGenreKeepsAll(movies[1..], genre);
    }
  }

  /**
   * The movies the page lists: all of them when no genre is selected (or the
   * selection is the empty string, which is falsy), otherwise those carrying
   * the selected genre.
   */
  function FilteredMovies(movies: seq<Movie>, selected: Option<string>): (r: seq<Movie>)
    ensures |r| <= |movies|
    ensures selected.None? ==> r == movies
    ensures selected.Some? && selected.value != [] ==>
              forall m :: m in r <==> m in movies && HasGenreNamed(m, selected.value)
  {
    if selected.Some? && selected.value != [] then FilterByGenre(movies, selected.value) else movies
  }

  /** The number of pages for `n` movies: the fewest pages of twenty that hold them all. */
  function PageCount(n: nat): (pages: nat)
    ensures pages * MoviesPerPage >= n
    ensures pages == 0 || (pages - 1) * MoviesPerPage < n
    ensures pages == 0 <==> n == 0
  {
    (n + MoviesPerPage - 1) / MoviesPerPage
  }

  /** An index argument of a JavaScript array slice, resolved against the length: negative counts from the end. */
  function ClampIndex(i: int, len: nat): (r: nat)
    ensures r <= len
    ensures 0 <= i <= len ==> r == i
  {
    if i < 0 then (if len + i < 0 then 0 else len + i)
    else if i > len then len
    else i
  }

  /** JavaScript's `s.slice(start, end)`. */
  function JsSlice<T>(s: seq<T>, start: int, end: int): (r: seq<T>)
    ensures |r| <= |s|
  {
    var lo := ClampIndex(start, |s|);
    var hi := ClampIndex(end, |s|);
    if lo < hi then s[lo..hi] else []
  }

  /**
   * The movies shown on page `page`. For a page numbered from 1 it is the
   * run of at most twenty movies starting at `(page - 1) * 20`, cut at the
   * end of the list.
   */
  function Paginate(movies: seq<Movie>, page: int): (r: seq<Movie>)
    ensures |r| <= MoviesPerPage
    ensures page >= 1 ==>
              r == movies[Min((page - 1) * MoviesPerPage, |movies|)..Min(page * MoviesPerPage, |movies|)]
  {
    JsSlice(movies, (page - 1) * MoviesPerPage, page * MoviesPerPage)
  }

  /** Pages 1 through `k`, one after the other. */
  function PagesUpTo(movies: seq<Movie>, k: nat): (r: seq<Movie>) {
    if k == 0 then [] else PagesUpTo(movies, k - 1) + Paginate(movies, k)
  }

  /** The first `k` pages together hold exactly the first `20 * k` movies (or all of them). */
  lemma {:induction false} PagesUpToIsPrefix(movies: seq<Movie>, k: nat)
    ensures PagesUpTo(movies, k) == movies[..Min(k * MoviesPerPage, |movies|)]
  {
    if k > 0 {
      PagesUpToIsPrefix(movies, k - 1);
      var a := Min((k - 1) * MoviesPerPage, |movies|);
      var b := Min(k * MoviesPerPage, |movies|);
      assert movies[..a] + movies[a..b] == movies[..b];
    }
  }

  /** Reading every page from 1 to the page count gives back the whole list, in order. */
  lemma PagesCoverList(movies: seq<Movie>)
    ensures PagesUpTo(movies, PageCount(|movies|)) == movies
  {
    PagesUpToIsPrefix(movies, PageCount(|movies|));
    assert movies[..|movies|] == movies;
  }

  /** Every numbered page is non-empty, and every page past the count is empty. */
  lemma PageNonEmptyExactlyInRange(movies: seq<Movie>, page: int)
    requires page >= 1
    ensures Paginate(movies, page) != [] <==> page <= PageCount(|movies|)
  {
  }

  /** On a page in range, something is shown exactly when the list is non-empty. */
  lemma PageInRangeShowsSomething(movies: seq<Movie>, page: int)
    requires PageInRange(page, PageCount(|movies|))
    ensures Paginate(movies, page) != [] <==> movies != []
  {
    PageNonEmptyExactlyInRange(movies, page);
  }

  /** The page-number buttons: 1 up to `total`, in order. */
  function PageNumbers(total: nat): (pages: seq<int>)
    ensures |pages| == total
    ensures forall i :: 0 <= i < total ==> pages[i] == i + 1
  {
    if total == 0 then [] else PageNumbers(total - 1) + [total]
  }

  /** Clicking a button selects its genre, or clears the filter when that genre is already selected. */
  function ToggleGenre(prev: Option<string>, genre: string): (next: Option<string>) {
    if prev == Some(genre) then None else Some(genre)
  }

  /** Selecting the same genre twice undoes the first selection from no filter or from that genre; from another genre it ends with no filter. */
  lemma ToggleGenreTwice(prev: Option<string>, genre: string)
    ensures prev == None || prev == Some(genre) ==> ToggleGenre(ToggleGenre(prev, genre), genre) == prev
    ensures prev != None && prev != Some(genre) ==> ToggleGenre(ToggleGenre(prev, genre), genre) == None
    ensures ToggleGenre(prev, genre) == Some(genre) <==> prev != Some(genre)
  {
  }

  /** The page `goToPage(p)` leaves: `p` when it is a page from 1 to `total`, otherwise the current one. */
  function GoTo(current: int, total: int, p: int): (page: int) {
    if 1 <= p && p <= total then p else current
  }

  /** Pages the pager can show: 1 up to the page count, where an empty list still shows page 1. */
  predicate PageInRange(current: int, total: int) {
    1 <= current <= Max(1, total)
  }

  /** `goToPage` accepts exactly the existing pages and never leaves the range. */
  lemma GoToKeepsRange(current: int, total: int, p: int)
    requires PageInRange(current, total)
    ensures PageInRange(GoTo(current, total, p), total)
    ensures GoTo(current, total, p) == p <==> (1 <= p <= total || p == current)
  {
  }

  /** Whether the Prev button is disabled. */
  function PrevDisabled(current: int): bool { current == 1 }

  /** Whether the Next button is disabled. */
  function NextDisabled(current: int, total: int): bool { current == total }

  /** An enabled Prev button moves back exactly one page. */
  lemma PrevClickMovesBack(current: int, total: int)
    requires PageInRange(current, total) && !PrevDisabled(current)
    ensures GoTo(current, total, current - 1) == current - 1
  {
  }

  /**
   * An enabled Next button moves forward one page, except on an empty list:
   * there the page is 1, the count is 0, the button is enabled and the click
   * changes nothing.
   */
  lemma NextClickMovesForward(current: int, total: int)
    requires PageInRange(current, total) && !NextDisabled(current, total)
    ensures total >= 1 ==> GoTo(current, total, current + 1) == current + 1
    ensures total == 0 ==> GoTo(current, total, current + 1) == current
  {
  }

  /** The page's state variables as a value. */
  datatype PageState = PageState(selected: Option<string>, currentPage: int)

  /** The page count for the current filter. */
  function TotalPagesFor(movies: seq<Movie>, selected: Option<string>): (total: nat) {
    PageCount(|FilteredMovies(movies, selected)|)
  }

  /** The user actions that change the page's state. */
  datatype PageEvent = SelectGenre(genre: string) | GoToPage(page: int)

  function Step(movies: seq<Movie>, st: PageState, e: PageEvent): (next: PageState) {
    match e
    case SelectGenre(g) => PageState(ToggleGenre(st.selected, g), 1)
    case GoToPage(p) => PageState(st.selected, GoTo(st.currentPage, TotalPagesFor(movies, st.selected), p))
  }

  function Run(movies: seq<Movie>, st: PageState, events: seq<PageEvent>): (end: PageState)
    decreases |events|
  {
    if events == [] then st else Run(movies, Step(movies, st, events[0]), events[1..])
  }

  /** Starting from page 1, any sequence of genre clicks and page requests keeps the page between 1 and the page count (at least 1). */
  lemma {:induction false} RunKeepsPageInRange(movies: seq<Movie>, st: PageState, events: seq<PageEvent>)
    requires PageInRange(st.currentPage, TotalPagesFor(movies, st.selected))
    ensures var end := Run(movies, st, events); PageInRange(end.currentPage, TotalPagesFor(movies, end.selected))
    decreases |events|
  {
    if events != [] {
      var next := Step(movies, st, events[0]);
      match events[0] {
        case SelectGenre(g) =>
        case GoToPage(p) => GoToKeepsRange(st.currentPage, TotalPagesFor(movies, st.selected), p);
      }
      RunKeepsPageInRange(movies, next, events[1..]);
    }
  }

  /** The page component's state: the selected genre and the current page over a fixed movie list. */
  class MoviesPageState {
    const movies: seq<Movie>
    var selectedGenre: Option<string>
    var currentPage: int

    ghost predicate Valid()
      reads this
    {
      PageInRange(currentPage, TotalPages())
    }

    /** The state on first render: no genre selected, page 1. */
    constructor (movies: seq<Movie>)
      ensures Valid()
      ensures this.movies == movies && selectedGenre == None && currentPage == 1
      ensures Shown() != [] <==> Filtered() != []
    {
      this.movies := movies;
      selectedGenre := None;
      currentPage := 1;
      new;
      PageInRangeShowsSomething(Filtered(), currentPage);
    }

    function State(): PageState
      reads this
    {
      PageState(selectedGenre, currentPage)
    }

    function Filtered(): seq<Movie>
      reads this
    {
      FilteredMovies(movies, selectedGenre)
    }

    function TotalPages(): nat
      reads this
    {
      TotalPagesFor(movies, selectedGenre)
    }

    function Shown(): seq<Movie>
      reads this
    {
      Paginate(Filtered(), currentPage)
    }

    /** A genre button is clicked: toggle the filter and go back to page 1. */
    method HandleGenreSelect(genre: string)
      requires Valid()
      modifies this
      ensures Valid()
      ensures selectedGenre == ToggleGenre(old(selectedGenre), genre) && currentPage == 1
      ensures State() == Step(movies, old(State()), SelectGenre(genre))
      ensures Shown() != [] <==> Filtered() != []
    {
      selectedGenre := if selectedGenre == Some(genre) then None else Some(genre);
      currentPage := 1;
      PageInRangeShowsSomething(Filtered(), currentPage);
    }

    /** A page is requested: it is taken only when it lies between 1 and the page count. */
    method GoToPage(page: int)
      requires Valid()
      modifies this`currentPage
      ensures Valid()
      ensures currentPage == (if 1 <= page <= TotalPages() then page else old(currentPage))
      ensures State() == Step(movies, old(State()), PageEvent.GoToPage(page))
      ensures Shown() != [] <==> Filtered() != []
    {
      if page >= 1 && page <= TotalPages() {
        currentPage := page;
      }
      PageInRangeShowsSomething(Filtered(), currentPage);
    }
  }
}
