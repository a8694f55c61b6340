/**
 * The catalogue records shared by the list views, reduced to the fields the
 * list logic reads: the id, the genre ids and the title.
 */
module Types {

  /** A movie entry of a list payload. */
  datatype Movie = Movie(id: int, title: string, genreIds: seq<int>)

  /** A TV-series entry of a list payload; it carries `name` where a movie carries `title`. */
  datatype TVShow = TVShow(id: int, name: string, genreIds: seq<int>)

  /** One entry of a genre taxonomy. */
  datatype Genre = Genre(id: int, name: string)

  /** An entry of the media grid, tagged by the kind of media it came from. */
  datatype MediaItem = MovieItem(movie: Movie) | ShowItem(show: TVShow) {

    function GenreIds(): seq<int> {
      match this
      case MovieItem(m) => m.genreIds
      case ShowItem(s) => s.genreIds
    }
  }
}
