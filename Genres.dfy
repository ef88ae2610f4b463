/** The movie and TV genre tables of the result screen and the mapping of movie-genre ids to
    TV-genre ids used for the series half of a filtered search. */
module Genres {

  import opened Common
  import opened Text

  datatype Genre = Genre(id: nat, name: string)

  const MovieGenres: seq<Genre> := [
    Genre(28, "Action"), Genre(12, "Adventure"), Genre(16, "Animation"), Genre(35, "Comedy"),
    Genre(80, "Crime"), Genre(99, "Documentary"), Genre(18, "Drama"), Genre(10751, "Family"),
    Genre(14, "Fantasy"), Genre(36, "History"), Genre(27, "Horror"), Genre(10402, "Music"),
    Genre(9648, "Mystery"), Genre(10749, "Romance"), Genre(878, "Science Fiction"),
    Genre(53, "Thriller"), Genre(10752, "War"), Genre(37, "Western")
  ]

  const TvGenres: seq<Genre> := [
    Genre(10759, "Action & Adventure"), Genre(16, "Animation"), Genre(35, "Comedy"),
    Genre(80, "Crime"), Genre(99, "Documentary"), Genre(18, "Drama"), Genre(10751, "Family"),
    Genre(10762, "Kids"), Genre(9648, "Mystery"), Genre(10763, "News"), Genre(10764, "Reality"),
    Genre(10765, "Sci-Fi & Fantasy"), Genre(10766, "Soap"), Genre(10767, "Talk"),
    Genre(10768, "War & Politics"), Genre(37, "Western")
  ]

  predicate IsMovieGenreId(id: nat)
  {
    exists g :: g in MovieGenres && g.id == id
  }

  predicate IsTvGenreId(id: nat)
  {
    exists g :: g in TvGenres && g.id == id
  }

  /** `a.toLowerCase().includes(b.toLowerCase())`. */
  predicate NameContains(a: string, b: string)
  {
    Contains(LowerString(a), LowerString(b))
  }

  /** A TV genre matches a movie genre when either lower-cased name contains the other. */
  predicate NamesMatch(tv: Genre, movie: Genre)
  {
    NameContains(tv.name, movie.name) || NameContains(movie.name, tv.name)
  }

  /** The predicate `g => g.id === id` of the movie-table lookup. */
  function HasId(id: nat): Genre -> bool
  {
    (g: Genre) => g.id == id
  }

  /** The predicate of the TV-table lookup for one movie genre. */
  function MatchesName(movie: Genre): Genre -> bool
  {
    (tv: Genre) => NamesMatch(tv, movie)
  }

  /** The TV genre id one movie genre id maps to: the first TV genre whose name matches the name of
      the first movie genre with that id; nothing for an unknown id or a name without a match. */
  function TvGenreFor(movieId: nat): (r: Option<nat>)
    ensures r.Some? ==> IsMovieGenreId(movieId) && IsTvGenreId(r.value)
  {
    match Find(MovieGenres, HasId(movieId))
    case None => None
    case Some(movie) =>
      match Find(TvGenres, MatchesName(movie))
      case None => None
      case Some(tv) => Some(tv.id)
  }

  /** What the mapping of one id means: an id outside the movie table yields nothing; a yielded id
      is the id of a TV genre whose name matches the name of the movie genre with that id; and a
      movie genre that no TV genre name matches yields nothing. */
  lemma TvGenreForBounds(movieId: nat)
    ensures !IsMovieGenreId(movieId) ==> TvGenreFor(movieId).None?
    ensures TvGenreFor(movieId).Some? ==>
      exists m, tv :: m in MovieGenres && m.id == movieId && tv in TvGenres && tv.id == TvGenreFor(movieId).value
                      && NamesMatch(tv, m)
    ensures (forall m, tv :: m in MovieGenres && m.id == movieId && tv in TvGenres ==> !NamesMatch(tv, m))
            ==> TvGenreFor(movieId).None?
  {
    var found := Find(MovieGenres, HasId(movieId));
    if found.Some? {
      var movie := found.value;
      assert movie in MovieGenres && movie.id == movieId;
      var tvMatch := Find(TvGenres, MatchesName(movie));
      if tvMatch.Some? {
        var tv := tvMatch.value;
        assert tv in TvGenres && NamesMatch(tv, movie);
        assert TvGenreFor(movieId) == Some(tv.id);
      } else {
        assert TvGenreFor(movieId) == None;
      }
    } else {
      assert TvGenreFor(movieId) == None;
    }
  }

  /** The ids `mapMovieToTVGenres` produces: each movie id's TV id in input order, with the ids
      that map to nothing left out. */
  function MappedGenres(ids: seq<nat>): (r: seq<nat>)
    ensures forall id :: id in r ==> exists m :: m in ids && TvGenreFor(m) == Some(id)
  {
    FilterMapBounds(ids, TvGenreFor);
    FilterMap(ids, TvGenreFor)
  }

  /** `mapMovieToTVGenres`: looks every movie id up in the movie table, then the first TV genre
      whose name matches, and pushes that TV genre's id. */
  method MapMovieToTVGenres(movieGenreIds: seq<nat>) returns (tvGenreIds: seq<nat>)
    ensures tvGenreIds == MappedGenres(movieGenreIds)
    ensures |tvGenreIds| <= |movieGenreIds|
    ensures forall id :: id in tvGenreIds ==> IsTvGenreId(id)
  {
    tvGenreIds := [];
    for i := 0 to |movieGenreIds|
      invariant tvGenreIds == FilterMap(movieGenreIds[..i], TvGenreFor)
    {
      var movieId := movieGenreIds[i];
      FilterMapStep(movieGenreIds, i, TvGenreFor);
      var movieGenre := Find(MovieGenres, HasId(movieId));
      if movieGenre.Some? {
        var tvGenre := Find(TvGenres, MatchesName(movieGenre.value));
        if tvGenre.Some? {
          tvGenreIds := tvGenreIds + [tvGenre.value.id];
        }
      }
    }
    assert movieGenreIds[..|movieGenreIds|] == movieGenreIds;
    MappedGenresBounds(movieGenreIds);
  }

  /** The mapping never yields more ids than it was given, and every id it yields is a TV genre id. */
  lemma MappedGenresBounds(ids: seq<nat>)
    ensures |MappedGenres(ids)| <= |ids|
    ensures forall id :: id in MappedGenres(ids) ==> IsTvGenreId(id)
  {
    FilterMapBounds(ids, TvGenreFor);
    forall id | id in MappedGenres(ids)
      ensures IsTvGenreId(id)
    {
      var x :| x in ids && TvGenreFor(x) == Some(id);
      TvGenreForBounds(x);
      var m, tv :| m in MovieGenres && m.id == x && tv in TvGenres && tv.id == id && NamesMatch(tv, m);
    }
  }

  /** The mapping keeps input order: mapping a concatenation maps each part in turn. */
  lemma MappedGenresAppend(a: seq<nat>, b: seq<nat>)
    ensures MappedGenres(a + b) == MappedGenres(a) + MappedGenres(b)
  {
    FilterMapAppend(a, b, TvGenreFor);
  }
}
