/**
 * The infinitely scrolling, genre-filterable media grid
 * (app/_components/MediaGrid.tsx).
 *
 * The component's state variables become the fields of `Controller`. Every
 * event the component reacts to is a method: the genre taxonomy arriving, a
 * fetch starting, a fetch completing or failing, the genre select changing,
 * the scroll sentinel becoming visible and the page number changing. Network
 * payloads are parameters, so no method performs I/O. A fetch is split into
 * `StartFetch`, which returns the request it issues, and `CompleteFetch` /
 * `FailFetch`, which apply its outcome; between the two, any other event may
 * happen, and the controller (like the component) does not check whether a
 * completing request is still current.
 */
module MediaGrid {
  import opened Wrappers
  import opened Types

  /** The select value that stands for "no genre filter". */
  const AllGenres: string := "all"

  /** The name shown for a genre id the taxonomy does not resolve. */
  const UnknownGenre: string := "Unknown"

  /** The query parameter that restricts a list request to one genre. */
  const WithGenresParam: string := "&with_genres="

  /**
   * The part of a list-endpoint payload the grid reads. `results` is None when
   * the payload's `results` is missing or not an array; `totalPages` is None
   * when `total_pages` is missing.
   */
  datatype ListPayload = ListPayload(results: Option<seq<MediaItem>>, totalPages: Option<int>)

  /**
   * One call of the fetch routine: the page asked for, whether the answer
   * replaces the list (a reset) or extends it, and the genre fragment of the
   * request URL, fixed when the fetch starts.
   */
  datatype FetchRequest = FetchRequest(page: int, reset: bool, genreQuery: string)

  /** The items a payload contributes: its results, or none when they are not an array. */
  function PayloadItems(p: ListPayload): seq<MediaItem> {
    p.results.GetOr([])
  }

  /** The total page count a completed fetch records: a missing or zero `total_pages` falls back to 1. */
  function RecordedTotalPages(p: ListPayload): (n: int)
    ensures n != 0
    ensures p.totalPages.Some? && p.totalPages.value != 0 ==> n == p.totalPages.value
    ensures p.totalPages.None? || p.totalPages.value == 0 ==> n == 1
  {
    if p.totalPages.Some? && p.totalPages.value != 0 then p.totalPages.value else 1
  }

  /**
   * The genre fragment of a list request: empty for "all", otherwise the
   * genre parameter followed by the selected value.
   */
  function GenreQuery(selected: string): (q: string)
    ensures q != [] <==> selected != AllGenres
    ensures q != [] ==> |WithGenresParam| <= |q| && q[..|WithGenresParam|] == WithGenresParam && q[|WithGenresParam|..] == selected
  {
    if selected != AllGenres then WithGenresParam + selected else ""
  }

  /**
   * The id-to-name map obtained by assigning `map[g.id] := g.name` for each
   * genre of `gs` in order, starting from an empty map.
   */
  function GenreMapOf(gs: seq<Genre>): (m: map<int, string>) {
    if gs == [] then map[]
    else GenreMapOf(gs[..|gs| - 1])[gs[|gs| - 1].id := gs[|gs| - 1].name]
  }

  /** The genre map has exactly the listed ids as keys. */
  lemma {:induction false} GenreMapOfKeys(gs: seq<Genre>)
    ensures GenreMapOf(gs).Keys == set g | g in gs :: g.id
  {
    if gs != [] {
      var init := gs[..|gs| - 1];
      GenreMapOfKeys(init);
      assert gs == init + [gs[|gs| - 1]];
    }
  }

  /** A listed genre whose id does not occur later in the list is mapped to its own name: the last duplicate wins. */
  lemma {:induction false} GenreMapOfLastWins(gs: seq<Genre>, i: nat)
    requires i < |gs|
    requires forall j :: i < j < |gs| ==> gs[j].id != gs[i].id
    ensures gs[i].id in GenreMapOf(gs) && GenreMapOf(gs)[gs[i].id] == gs[i].name
  {
    if i < |gs| - 1 {
      var init := gs[..|gs| - 1];
      assert init[i] == gs[i];
      GenreMapOfLastWins(init, i);
    }
  }

  /**
   * The loop that fills the genre map from a taxonomy payload: one
   * assignment per genre, in list order.
   */
  method BuildGenreMap(gs: seq<Genre>) returns (m: map<int, string>)
    ensures m == GenreMapOf(gs)
    ensures m.Keys == set g | g in gs :: g.id
    ensures forall i :: 0 <= i < |gs| && (forall j :: i < j < |gs| ==> gs[j].id != gs[i].id) ==>
              gs[i].id in m && m[gs[i].id] == gs[i].name
  {
    m := map[];
    var k := 0;
    while k < |gs|
      invariant 0 <= k <= |gs|
      invariant m == GenreMapOf(gs[..k])
    {
      assert gs[..k + 1][..k] == gs[..k];
      m := m[gs[k].id := gs[k].name];
      k := k + 1;
    }
    assert gs[..k] == gs;
    GenreMapOfKeys(gs);
    forall i | 0 <= i < |gs| && (forall j :: i < j < |gs| ==> gs[j].id != gs[i].id)
      ensures gs[i].id in m && m[gs[i].id] == gs[i].name
    {
      GenreMapOfLastWins(gs, i);
    }
  }

  /**
   * The name shown for one genre id: the mapped name, or "Unknown" when the id
   * is not mapped or is mapped to the empty string (which is falsy).
   */
  function ResolveGenreName(m: map<int, string>, id: int): (name: string)
    ensures name != []
    ensures id in m && m[id] != [] ==> name == m[id]
    ensures id !in m || m[id] == [] ==> name == UnknownGenre
  {
    if id in m && m[id] != [] then m[id] else UnknownGenre
  }

  /** The genre names of a card: one resolved name per genre id, in order. */
  function GenreNames(m: map<int, string>, ids: seq<int>): (names: seq<string>)
    ensures |names| == |ids|
    ensures forall i :: 0 <= i < |ids| ==> names[i] == ResolveGenreName(m, ids[i])
  {
    if ids == [] then [] else [ResolveGenreName(m, ids[0])] + GenreNames(m, ids[1..])
  }

  /** Whether the "seen all" indicator is rendered. */
  function EndIndicatorShown(loading: bool, page: int, totalPages: int, itemCount: nat): bool {
    !loading && page >= totalPages && itemCount > 0
  }

  /** Whether the sentinel callback advances the page. */
  function NearEndAdvances(intersecting: bool, loading: bool, page: int, totalPages: int): bool {
    intersecting && !loading && page < totalPages
  }

  /** While the "seen all" indicator is shown, the sentinel never advances the page. */
  lemma EndIndicatorStopsAdvance(intersecting: bool, loading: bool, page: int, totalPages: int, itemCount: nat)
    ensures EndIndicatorShown(loading, page, totalPages, itemCount) ==>
              !NearEndAdvances(intersecting, loading, page, totalPages)
    ensures !NearEndAdvances(true, loading, page, totalPages) && !loading && itemCount > 0 ==>
              EndIndicatorShown(loading, page, totalPages, itemCount)
  {
  }

  /** The grid's state: the component's state variables, updated by its event handlers. */
  class Controller {
    var items: seq<MediaItem>
    var genres: seq<Genre>
    var genreMap: map<int, string>
    var selectedGenre: string
    var page: int
    var totalPages: int
    var loading: bool
    var initialLoading: bool

    /** Pages are numbered from 1, and the recorded page count is never 0. */
    ghost predicate Valid()
      reads this
    {
      page >= 1 && totalPages != 0
    }

    /** The state on mount: nothing loaded, page 1 of 1, "all" genres, initial loading shown. */
    constructor ()
      ensures Valid()
      ensures items == [] && genres == [] && genreMap == map[] && selectedGenre == AllGenres
      ensures page == 1 && totalPages == 1 && !loading && initialLoading
      ensures !LoadingFlagsAgree()
    {
      items := [];
      genres := [];
      genreMap := map[];
      selectedGenre := AllGenres;
      page := 1;
      totalPages := 1;
      loading := false;
      initialLoading := true;
    }

    /**
     * Whenever the initial-loading flag is set, the loading flag is set too.
     * Only the state on mount breaks this: no fetch has started yet.
     */
    predicate LoadingFlagsAgree()
      reads this
    {
      initialLoading ==> loading
    }

    /** Whether further pages remain according to the recorded page count. */
    function HasMore(): bool
      reads this
    {
      page < totalPages
    }

    /**
     * The taxonomy payload arrives. When its `genres` is an array, the genre
     * list is replaced by it and the map is rebuilt from scratch; otherwise
     * nothing changes.
     */
    method LoadGenres(payloadGenres: Option<seq<Genre>>)
      modifies this`genres, this`genreMap
      ensures payloadGenres.None? ==> genres == old(genres) && genreMap == old(genreMap)
      ensures payloadGenres.Some? ==> genres == payloadGenres.value && genreMap == GenreMapOf(payloadGenres.value)
    {
      if payloadGenres.Some? {
        genres := payloadGenres.value;
        genreMap := BuildGenreMap(payloadGenres.value);
      }
    }

    /**
     * A fetch of `pageNum` starts: the loading flag is set, and a reset fetch
     * also sets the initial-loading flag. The request carries the genre
     * fragment of the genre selected now.
     */
    method StartFetch(pageNum: int, reset: bool) returns (req: FetchRequest)
      modifies this`loading, this`initialLoading
      ensures loading
      ensures initialLoading == (reset || old(initialLoading))
      ensures LoadingFlagsAgree()
      ensures req.page == pageNum && req.reset == reset && req.genreQuery == GenreQuery(selectedGenre)
    {
      loading := true;
      if reset {
        initialLoading := true;
      }
      req := FetchRequest(pageNum, reset, GenreQuery(selectedGenre));
    }

    /**
     * The fetch `req` succeeds with `payload`. A reset replaces the items by
     * the payload's results; any other fetch appends them after the items
     * already shown. The page count is recorded, and both loading flags clear.
     */
    method CompleteFetch(req: FetchRequest, payload: ListPayload)
      requires Valid()
      modifies this`items, this`totalPages, this`loading, this`initialLoading
      ensures Valid()
      ensures req.reset ==> items == PayloadItems(payload)
      ensures !req.reset ==> items == old(items) + PayloadItems(payload)
      ensures totalPages == RecordedTotalPages(payload)
      ensures !loading && !initialLoading
      ensures LoadingFlagsAgree()
    {
      if req.reset {
        items := PayloadItems(payload);
      } else {
        items := items + PayloadItems(payload);
      }
      totalPages := RecordedTotalPages(payload);
      loading := false;
      initialLoading := false;
    }

    /** A fetch fails: items and page count stay as they were; both loading flags clear. */
    method FailFetch()
      modifies this`loading, this`initialLoading
      ensures !loading && !initialLoading
      ensures LoadingFlagsAgree()
    {
      loading := false;
      initialLoading := false;
    }

    /** The genre-change effect: back to page 1 and a reset fetch of page 1. */
    method ResetForGenre() returns (req: FetchRequest)
      requires Valid()
      modifies this`page, this`loading, this`initialLoading
      ensures Valid()
      ensures page == 1 && loading && initialLoading
      ensures LoadingFlagsAgree()
      ensures req == FetchRequest(1, true, GenreQuery(selectedGenre))
    {
      page := 1;
      req := StartFetch(1, true);
    }

    /**
     * The genre select reports `genre`. Selecting the value already selected
     * changes no state and so triggers nothing; any other value is recorded
     * and triggers the genre-change effect.
     */
    method SelectGenre(genre: string) returns (req: Option<FetchRequest>)
      requires Valid()
      modifies this`selectedGenre, this`page, this`loading, this`initialLoading
      ensures Valid()
      ensures selectedGenre == genre
      ensures req.Some? <==> genre != old(selectedGenre)
      ensures req.Some? ==> req.value == FetchRequest(1, true, GenreQuery(genre)) && page == 1 && loading && initialLoading
      ensures req.None? ==> page == old(page) && loading == old(loading) && initialLoading == old(initialLoading)
      ensures old(LoadingFlagsAgree()) ==> LoadingFlagsAgree()
    {
      if genre == selectedGenre {
        req := None;
      } else {
        selectedGenre := genre;
        var r := ResetForGenre();
        req := Some(r);
      }
    }

    /**
     * The sentinel callback. The page advances by exactly one when the
     * sentinel intersects, no fetch is loading and the recorded page count
     * has not been reached; otherwise nothing changes.
     */
    method NearEnd(intersecting: bool) returns (advanced: bool)
      requires Valid()
      modifies this`page
      ensures Valid()
      ensures advanced == NearEndAdvances(intersecting, loading, old(page), totalPages)
      ensures page == if advanced then old(page) + 1 else old(page)
      ensures old(page) <= totalPages ==> page <= totalPages
    {
      advanced := NearEndAdvances(intersecting, loading, page, totalPages);
      if advanced {
        page := page + 1;
      }
    }

    /** The page-change effect: an appending fetch of the current page, but only past page 1. */
    method PageEffect() returns (req: Option<FetchRequest>)
      modifies this`loading, this`initialLoading
      ensures req.Some? <==> page > 1
      ensures req.Some? ==> req.value == FetchRequest(page, false, GenreQuery(selectedGenre)) && loading
      ensures req.None? ==> loading == old(loading)
      ensures initialLoading == old(initialLoading)
      ensures old(LoadingFlagsAgree()) ==> LoadingFlagsAgree()
    {
      if page > 1 {
        var r := StartFetch(page, false);
        req := Some(r);
      } else {
        req := None;
      }
    }
  }

  /**
   * Three pages scrolled through: page 1 is loaded on mount, and each time
   * the sentinel shows after a load the next page is appended. Once the last
   * reported page is in, nothing more is requested and the grid shows the end
   * indicator.
   */
  method ScrollThroughThreePages(p1: seq<MediaItem>, p2: seq<MediaItem>, p3: seq<MediaItem>)
    returns (shown: seq<MediaItem>, more: bool, endShown: bool, extraFetch: bool)
    requires p1 != []
    ensures shown == p1 + p2 + p3
    ensures !more && endShown && !extraFetch
  {
    var c := new Controller();
    var r1 := c.ResetForGenre();
    c.CompleteFetch(r1, ListPayload(Some(p1), Some(3)));
    var a := c.NearEnd(true);
    var r2 := c.PageEffect();
    c.CompleteFetch(r2.value, ListPayload(Some(p2), Some(3)));
    a := c.NearEnd(true);
    var r3 := c.PageEffect();
    c.CompleteFetch(r3.value, ListPayload(Some(p3), Some(3)));
    a := c.NearEnd(true);
    shown, more := c.items, c.HasMore();
    endShown := EndIndicatorShown(c.loading, c.page, c.totalPages, |c.items|);
    extraFetch := a;
  }

  /**
   * While a fetch is in flight the sentinel can fire any number of times
   * without advancing the page: only one appending fetch is issued.
   */
  method SentinelWhileLoading(p1: seq<MediaItem>, firings: nat) returns (pageAfter: int, advances: int)
    ensures pageAfter == 2 && advances == 0
  {
    var c := new Controller();
    var r1 := c.ResetForGenre();
    c.CompleteFetch(r1, ListPayload(Some(p1), Some(5)));
    var a := c.NearEnd(true);
    var r2 := c.PageEffect();
    advances := 0;
    var k := 0;
    while k < firings
      invariant c.Valid() && c.loading && c.page == 2 && advances == 0
    {
      a := c.NearEnd(true);
      if a {
        advances := advances + 1;
      }
      k := k + 1;
    }
    pageAfter := c.page;
  }

  /**
   * A failed page is skipped, not retried: after the fetch of page 2 fails,
   * the next sentinel event asks for page 3, and page 2's items never appear.
   */
  method FailedPageIsSkipped(p1: seq<MediaItem>, p3: seq<MediaItem>) returns (nextRequested: int, shown: seq<MediaItem>)
    ensures nextRequested == 3
    ensures shown == p1 + p3
  {
    var c := new Controller();
    var r1 := c.ResetForGenre();
    c.CompleteFetch(r1, ListPayload(Some(p1), Some(5)));
    var a := c.NearEnd(true);
    var r2 := c.PageEffect();
    c.FailFetch();
    a := c.NearEnd(true);
    var r3 := c.PageEffect();
    c.CompleteFetch(r3.value, ListPayload(Some(p3), Some(5)));
    nextRequested, shown := r3.value.page, c.items;
  }

  /**
   * No stale-response check: an appending fetch started under the old genre
   * that completes after the new genre's reset fetch is appended to the new
   * genre's items.
   */
  method StaleAppendIsKept(p1: seq<MediaItem>, current: seq<MediaItem>, stale: seq<MediaItem>, genre: string)
    returns (staleQuery: string, shown: seq<MediaItem>)
    requires genre != AllGenres
    ensures staleQuery == [] && shown == current + stale
  {
    var c := new Controller();
    var r1 := c.ResetForGenre();
    c.CompleteFetch(r1, ListPayload(Some(p1), Some(3)));
    var a := c.NearEnd(true);
    var r2 := c.PageEffect();
    var r3 := c.SelectGenre(genre);
    c.CompleteFetch(r3.value, ListPayload(Some(current), Some(3)));
    c.CompleteFetch(r2.value, ListPayload(Some(stale), Some(3)));
    staleQuery, shown := r2.value.genreQuery, c.items;
  }
}
