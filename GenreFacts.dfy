/** What the genre mapping yields for the first movie genres of the table, proved from the two
    tables and the case-insensitive substring rule. */
module GenreFacts {

  import opened Common
  import opened Text
  import opened Genres

  /** Two names neither of which contains the other, witnessed by a letter of each that the other
      lacks in both cases. */
  lemma Unrelated(a: string, b: string, c: char, d: char)
    requires 'a' <= c <= 'z' && 'a' <= d <= 'z'
    requires (c in b || Upper(c) in b) && c !in a && Upper(c) !in a
    requires (d in a || Upper(d) in a) && d !in b && Upper(d) !in b
    ensures !NameContains(a, b) && !NameContains(b, a)
  {
    LowerHas(a, c);
    LowerHas(b, c);
    LowerHas(a, d);
    LowerHas(b, d);
    NotContainsByChar(LowerString(a), LowerString(b), c);
    NotContainsByChar(LowerString(b), LowerString(a), d);
  }

  /** A name that holds another verbatim at index `i` contains it ignoring case. */
  lemma NameInName(a: string, b: string, i: nat)
    requires i + |b| <= |a| && a[i..i + |b|] == b
    ensures NameContains(a, b)
  {
    assert OccursAt(a, b, i);
    ContainsLowered(a, b);
  }

  /** Genres with the same name match. */
  lemma SameNameMatches(tv: Genre, movie: Genre)
    requires tv.name == movie.name
    ensures NamesMatch(tv, movie)
  {
    assert OccursAt(LowerString(tv.name), LowerString(movie.name), 0);
  }

  lemma ActionInMovieTable()
    ensures Find(MovieGenres, HasId(28)) == Some(Genre(28, "Action"))
  {
    FindAt(MovieGenres, HasId(28), 0);
  }

  lemma AdventureInMovieTable()
    ensures Find(MovieGenres, HasId(12)) == Some(Genre(12, "Adventure"))
  {
    var p := HasId(12);
    NoneBeforeStep(MovieGenres, p, 0);
    FindAt(MovieGenres, p, 1);
  }

  lemma AnimationInMovieTable()
    ensures Find(MovieGenres, HasId(16)) == Some(Genre(16, "Animation"))
  {
    var p := HasId(16);
    NoneBeforeStep(MovieGenres, p, 0);
    NoneBeforeStep(MovieGenres, p, 1);
    FindAt(MovieGenres, p, 2);
  }

  /** "Action" is part of "Action & Adventure", the first TV genre. */
  lemma ActionTvMatch()
    ensures Find(TvGenres, MatchesName(Genre(28, "Action"))) == Some(Genre(10759, "Action & Adventure"))
  {
    assert "Action & Adventure" == "Action" + " & Adventure";
    NameInName("Action & Adventure", "Action", 0);
    FindAt(TvGenres, MatchesName(Genre(28, "Action")), 0);
  }

  /** "Adventure" is part of "Action & Adventure" too. */
  lemma AdventureTvMatch()
    ensures Find(TvGenres, MatchesName(Genre(12, "Adventure"))) == Some(Genre(10759, "Action & Adventure"))
  {
    assert "Action & Adventure" == "Action & " + "Adventure";
    NameInName("Action & Adventure", "Adventure", 9);
    FindAt(TvGenres, MatchesName(Genre(12, "Adventure")), 0);
  }

  /** "Animation" passes over "Action & Adventure" (no "m" there, no "d" in "Animation") and
      stops at the TV genre of the same name. */
  lemma AnimationTvMatch()
    ensures Find(TvGenres, MatchesName(Genre(16, "Animation"))) == Some(Genre(16, "Animation"))
  {
    var movie := Genre(16, "Animation");
    var p := MatchesName(movie);
    AnimationVsActionAdventure();
    NoneBeforeStep(TvGenres, p, 0);
    SameNameMatches(TvGenres[1], movie);
    FindAt(TvGenres, p, 1);
  }

  lemma AnimationVsActionAdventure()
    ensures !NamesMatch(Genre(10759, "Action & Adventure"), Genre(16, "Animation"))
  {
    Unrelated("Action & Adventure", "Animation", 'm', 'd');
  }

  lemma MapAction()
    ensures TvGenreFor(28) == Some(10759)
  {
    ActionInMovieTable();
    ActionTvMatch();
  }

  lemma MapAdventure()
    ensures TvGenreFor(12) == Some(10759)
  {
    AdventureInMovieTable();
    AdventureTvMatch();
  }

  lemma MapAnimation()
    ensures TvGenreFor(16) == Some(16)
  {
    AnimationInMovieTable();
    AnimationTvMatch();
  }

  /** Two movie genres that map to the same TV genre put that TV id into the result twice, in
      input order; Action (28) and Adventure (12) are such a pair (`MapAction`, `MapAdventure`). */
  lemma SharedTvGenreRepeats(a: nat, b: nat, tv: nat)
    requires TvGenreFor(a) == Some(tv) && TvGenreFor(b) == Some(tv)
    ensures MappedGenres([a, b]) == [tv, tv]
  {
    FilterMapPair(a, b, TvGenreFor, tv);
  }
}
