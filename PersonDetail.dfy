/** The person detail page: the age label and the three filmography lists (movies, TV shows and
    other works) built from the person's combined credits, each filtered, titled, ordered newest
    first and capped at twenty unless "show all" is on, with the category counts. */
module PersonDetail {

  import opened Common

  // ---------------------------------------------------------------------------
  // Age

  /** A calendar date as `getFullYear`/`getMonth`/`getDate` read it. */
  datatype CalendarDate = CalendarDate(year: int, month: nat, day: nat)

  /** `a` is on or before `b`. */
  predicate NotAfter(a: CalendarDate, b: CalendarDate)
  {
    a.year < b.year || (a.year == b.year && (a.month < b.month || (a.month == b.month && a.day <= b.day)))
  }

  /** The date `years` years after `birth`, on the same month and day. */
  function Anniversary(birth: CalendarDate, years: int): CalendarDate
  {
    CalendarDate(birth.year + years, birth.month, birth.day)
  }

  /** `calculateAge`: nothing ("Unknown") without a birthday; otherwise the years completed by
      the day of death, or by today for a living person: the last anniversary on or before that
      day is the age-th, and the next one is after it. */
  function CalculateAge(birthday: Option<CalendarDate>, deathday: Option<CalendarDate>, today: CalendarDate)
    : (r: Option<int>)
    ensures r.None? <==> birthday.None?
    ensures r.Some? ==>
              var end := if deathday.Some? then deathday.value else today;
              NotAfter(Anniversary(birthday.value, r.value), end)
              && !NotAfter(Anniversary(birthday.value, r.value + 1), end)
  {
    if birthday.None? then None
    else
      var birth := birthday.value;
      var end := if deathday.Some? then deathday.value else today;
      var age := end.year - birth.year;
      var monthDiff := end.month - birth.month;
      if monthDiff < 0 || (monthDiff == 0 && end.day < birth.day) then Some(age - 1) else Some(age)
  }

  /** Only one number of years has its anniversary on or before a day and the next one after
      it, so the age is determined by that property. */
  lemma AgeIsUnique(birth: CalendarDate, end: CalendarDate, a: int, b: int)
    requires NotAfter(Anniversary(birth, a), end) && !NotAfter(Anniversary(birth, a + 1), end)
    requires NotAfter(Anniversary(birth, b), end) && !NotAfter(Anniversary(birth, b + 1), end)
    ensures a == b
  {
  }

  // ---------------------------------------------------------------------------
  // Credits

  /** One entry of the person's combined cast credits. A date is the parsed timestamp of a
      non-empty date string, and is missing for a missing or empty one. */
  datatype Credit = Credit(
    id: nat, title: Option<string>, name: Option<string>,
    releaseDate: Option<int>, firstAirDate: Option<int>, mediaType: string)

  /** A credit as listed: the credit with its display title filled in. */
  datatype MediaItem = MediaItem(credit: Credit, title: string)

  /** `a || fallback` for an optional text: an empty text counts as missing. */
  function OrElse(a: Option<string>, fallback: string): (r: string)
    ensures fallback != "" ==> r != ""
  {
    if a.Some? && a.value != "" then a.value else fallback
  }

  /** `a || b` for two optional dates. */
  function FirstDate(a: Option<int>, b: Option<int>): Option<int>
  {
    if a.Some? then a else b
  }

  predicate IsMovieCredit(c: Credit)
  {
    c.mediaType == "movie"
  }

  predicate IsTvCredit(c: Credit)
  {
    c.mediaType == "tv"
  }

  predicate IsOtherCredit(c: Credit)
  {
    c.mediaType != "movie" && c.mediaType != "tv"
  }

  function MovieTitle(c: Credit): (r: string)
    ensures r != ""
    ensures c.title.Some? && c.title.value != "" ==> r == c.title.value
    ensures (c.title.None? || c.title.value == "") ==> r == "Unknown Title"
  {
    OrElse(c.title, "Unknown Title")
  }

  function TvTitle(c: Credit): (r: string)
    ensures r != ""
    ensures c.name.Some? && c.name.value != "" ==> r == c.name.value
    ensures (c.name.None? || c.name.value == "") && c.title.Some? && c.title.value != "" ==> r == c.title.value
    ensures (c.name.None? || c.name.value == "") && (c.title.None? || c.title.value == "") ==> r == "Unknown Title"
  {
    OrElse(c.name, OrElse(c.title, "Unknown Title"))
  }

  function OtherTitle(c: Credit): (r: string)
    ensures r != ""
    ensures c.title.Some? && c.title.value != "" ==> r == c.title.value
    ensures (c.title.None? || c.title.value == "") && c.name.Some? && c.name.value != "" ==> r == c.name.value
    ensures (c.title.None? || c.title.value == "") && (c.name.None? || c.name.value == "") ==> r == "Unknown Title"
  {
    OrElse(c.title, OrElse(c.name, "Unknown Title"))
  }

  /** The date each list sorts by: the release date for movies, the first air date for TV, and
      the release date, else the first air date, for other works. */
  datatype SortKey = ReleaseDate | FirstAirDate | EitherDate

  function DateOf(key: SortKey, it: MediaItem): Option<int>
  {
    match key
    case ReleaseDate => it.credit.releaseDate
    case FirstAirDate => it.credit.firstAirDate
    case EitherDate => FirstDate(it.credit.releaseDate, it.credit.firstAirDate)
  }

  /** `filter(p).map(item => ({...item, title: title(item)}))`. */
  function Titled(cast: seq<Credit>, p: Credit -> bool, title: Credit -> string): (r: seq<MediaItem>)
    ensures |r| == |Filter(cast, p)|
    ensures forall i :: 0 <= i < |r| ==> r[i] == MediaItem(Filter(cast, p)[i], title(Filter(cast, p)[i]))
    ensures forall it :: it in r ==> it.credit in cast && p(it.credit) && it.title == title(it.credit)
  {
    var kept := Filter(cast, p);
    seq(|kept|, i requires 0 <= i < |kept| => MediaItem(kept[i], title(kept[i])))
  }

  // ---------------------------------------------------------------------------
  // Newest first

  /** `a` may precede `b`: `b` has no date, or both have one and `a`'s is not older. */
  predicate InOrder(key: SortKey, a: MediaItem, b: MediaItem)
  {
    DateOf(key, b).None? || (DateOf(key, a).Some? && DateOf(key, a).value >= DateOf(key, b).value)
  }

  /** The comparison is total: of any two works, one may precede the other. */
  lemma InOrderTotal(key: SortKey, a: MediaItem, b: MediaItem)
    ensures InOrder(key, a, b) || InOrder(key, b, a)
  {
  }

  /** The comparison is transitive, so "newest first" is a consistent order. */
  lemma InOrderTransitive(key: SortKey, a: MediaItem, b: MediaItem, c: MediaItem)
    requires InOrder(key, a, b) && InOrder(key, b, c)
    ensures InOrder(key, a, c)
  {
  }

  predicate NewestFirst(s: seq<MediaItem>, key: SortKey)
  {
    forall i, j :: 0 <= i < j < |s| ==> InOrder(key, s[i], s[j])
  }

  /** `x` placed before the first element it may precede. */
  function Insert(x: MediaItem, s: seq<MediaItem>, key: SortKey): seq<MediaItem>
  {
    if s == [] then [x]
    else if InOrder(key, x, s[0]) then [x] + s
    else [s[0]] + Insert(x, s[1..], key)
  }

  lemma {:induction false} InsertPermutes(x: MediaItem, s: seq<MediaItem>, key: SortKey)
    ensures multiset(Insert(x, s, key)) == multiset(s) + multiset{x}
    ensures |Insert(x, s, key)| == |s| + 1
  {
    if s != [] && !InOrder(key, x, s[0]) {
      InsertPermutes(x, s[1..], key);
      assert s == [s[0]] + s[1..];
    }
  }

  lemma {:induction false} InsertMembers(x: MediaItem, s: seq<MediaItem>, key: SortKey)
    ensures forall y :: y in Insert(x, s, key) ==> y == x || y in s
  {
    if s != [] && !InOrder(key, x, s[0]) {
      InsertMembers(x, s[1..], key);
    }
  }

  lemma NewestFirstTail(s: seq<MediaItem>, key: SortKey)
    requires s != [] && NewestFirst(s, key)
    ensures NewestFirst(s[1..], key)
    ensures forall y :: y in s[1..] ==> InOrder(key, s[0], y)
  {
    forall i, j | 0 <= i < j < |s[1..]| ensures InOrder(key, s[1..][i], s[1..][j]) {
      assert s[1..][i] == s[i + 1] && s[1..][j] == s[j + 1];
    }
  }

  lemma NewestFirstCons(h: MediaItem, rest: seq<MediaItem>, key: SortKey)
    requires NewestFirst(rest, key)
    requires forall y :: y in rest ==> InOrder(key, h, y)
    ensures NewestFirst([h] + rest, key)
  {
    var r := [h] + rest;
    forall i, j | 0 <= i < j < |r| ensures InOrder(key, r[i], r[j]) {
      if i == 0 {
        assert r[j] == rest[j - 1];
      } else {
        assert r[i] == rest[i - 1] && r[j] == rest[j - 1];
      }
    }
  }

  lemma {:induction false} InsertKeepsOrder(x: MediaItem, s: seq<MediaItem>, key: SortKey)
    requires NewestFirst(s, key)
    ensures NewestFirst(Insert(x, s, key), key)
  {
    if s != [] {
      NewestFirstTail(s, key);
      if InOrder(key, x, s[0]) {
        assert s == [s[0]] + s[1..];
        NewestFirstCons(x, s, key);
      } else {
        InsertKeepsOrder(x, s[1..], key);
        InsertMembers(x, s[1..], key);
        NewestFirstCons(s[0], Insert(x, s[1..], key), key);
      }
    }
  }

  /** Inserting the head into the sorted tail sorts the whole list. */
  lemma SortStep(s: seq<MediaItem>, rest: seq<MediaItem>, key: SortKey)
    requires s != [] && multiset(rest) == multiset(s[1..]) && NewestFirst(rest, key)
    ensures multiset(Insert(s[0], rest, key)) == multiset(s) && |Insert(s[0], rest, key)| == |s|
    ensures NewestFirst(Insert(s[0], rest, key), key)
  {
    InsertPermutes(s[0], rest, key);
    InsertKeepsOrder(s[0], rest, key);
    assert s == [s[0]] + s[1..];
  }

  /** The `sort` of the three lists: a stable sort that puts dated items first, newest first, and
      undated items after them. */
  function SortNewestFirst(s: seq<MediaItem>, key: SortKey): (r: seq<MediaItem>)
    ensures multiset(r) == multiset(s) && |r| == |s|
    ensures NewestFirst(r, key)
  {
    if s == [] then []
    else
      var rest := SortNewestFirst(s[1..], key);
      SortStep(s, rest, key);
      Insert(s[0], rest, key)
  }

  /** In a newest-first list every dated item comes before every undated one. */
  lemma DatedBeforeUndated(s: seq<MediaItem>, key: SortKey, i: nat, j: nat)
    requires NewestFirst(s, key)
    requires i < |s| && j < |s| && DateOf(key, s[i]).Some? && DateOf(key, s[j]).None?
    ensures i < j
  {
  }

  /** One whole filmography list: the cast credits `p` keeps, titled by `title`, newest first
      by `key`. */
  function FullFilmography(cast: seq<Credit>, p: Credit -> bool, title: Credit -> string,
                           key: SortKey): (r: seq<MediaItem>)
    ensures multiset(r) == multiset(Titled(cast, p, title)) && |r| == |Filter(cast, p)|
    ensures forall it :: it in r ==> it.credit in cast && p(it.credit) && it.title == title(it.credit)
    ensures NewestFirst(r, key)
  {
    var sorted := SortNewestFirst(Titled(cast, p, title), key);
    assert forall it :: it in sorted ==> it in multiset(Titled(cast, p, title));
    sorted
  }

  /** The list as shown: nothing when the person has no cast credits, otherwise the whole list
      with "show all" on and its first twenty items with it off. */
  function Filmography(cast: Option<seq<Credit>>, p: Credit -> bool, title: Credit -> string,
                       key: SortKey, showAll: bool): (r: seq<MediaItem>)
    ensures cast.None? ==> r == []
    ensures cast.Some? ==> r <= FullFilmography(cast.value, p, title, key)
    ensures cast.Some? ==>
              |r| == if showAll || |Filter(cast.value, p)| <= 20 then |Filter(cast.value, p)| else 20
  {
    if cast.None? then []
    else if showAll then FullFilmography(cast.value, p, title, key)
    else Take(FullFilmography(cast.value, p, title, key), 20)
  }

  /** A shown list is newest first and holds only credits of its category from the cast, each
      under its display title. */
  lemma FilmographyShowsItsCategory(cast: Option<seq<Credit>>, p: Credit -> bool, title: Credit -> string,
                                    key: SortKey, showAll: bool)
    ensures var r := Filmography(cast, p, title, key, showAll);
            NewestFirst(r, key)
            && forall it :: it in r ==> it.credit in cast.value && p(it.credit) && it.title == title(it.credit)
  {
    if cast.Some? {
      var full := FullFilmography(cast.value, p, title, key);
      var r := Filmography(cast, p, title, key, showAll);
      assert forall i :: 0 <= i < |r| ==> r[i] == full[i];
    }
  }

  /** `getMovies`: the movie credits under their title ("Unknown Title" when it is missing or
      empty), newest release first, at most twenty unless "show all" is on. */
  function GetMovies(cast: Option<seq<Credit>>, showAllMovies: bool): (r: seq<MediaItem>)
    ensures forall it :: it in r ==>
              it.credit in CastList(cast) && it.credit.mediaType == "movie"
              && it.title == OrElse(it.credit.title, "Unknown Title") && it.title != ""
    ensures NewestFirst(r, ReleaseDate)
    ensures cast.Some? ==> r <= FullFilmography(cast.value, IsMovieCredit, MovieTitle, ReleaseDate)
    ensures |r| == if showAllMovies || CategoryCount(cast, IsMovieCredit) <= 20 then CategoryCount(cast, IsMovieCredit) else 20
    ensures showAllMovies ==> multiset(r) == multiset(Titled(CastList(cast), IsMovieCredit, MovieTitle))
  {
    FilmographyShowsItsCategory(cast, IsMovieCredit, MovieTitle, ReleaseDate, showAllMovies);
    Filmography(cast, IsMovieCredit, MovieTitle, ReleaseDate, showAllMovies)
  }

  /** `getTVShows`: the TV credits under their name, else their title, else "Unknown Title",
      newest first air date first, at most twenty unless "show all" is on. */
  function GetTVShows(cast: Option<seq<Credit>>, showAllTVShows: bool): (r: seq<MediaItem>)
    ensures forall it :: it in r ==>
              it.credit in CastList(cast) && it.credit.mediaType == "tv"
              && it.title == OrElse(it.credit.name, OrElse(it.credit.title, "Unknown Title")) && it.title != ""
    ensures NewestFirst(r, FirstAirDate)
    ensures cast.Some? ==> r <= FullFilmography(cast.value, IsTvCredit, TvTitle, FirstAirDate)
    ensures |r| == if showAllTVShows || CategoryCount(cast, IsTvCredit) <= 20 then CategoryCount(cast, IsTvCredit) else 20
    ensures showAllTVShows ==> multiset(r) == multiset(Titled(CastList(cast), IsTvCredit, TvTitle))
  {
    FilmographyShowsItsCategory(cast, IsTvCredit, TvTitle, FirstAirDate, showAllTVShows);
    Filmography(cast, IsTvCredit, TvTitle, FirstAirDate, showAllTVShows)
  }

  /** `getOthers`: the credits that are neither movies nor TV, under their title, else their
      name, else "Unknown Title", newest first by release date or else first air date, at most
      twenty unless "show all" is on. */
  function GetOthers(cast: Option<seq<Credit>>, showAllOthers: bool): (r: seq<MediaItem>)
    ensures forall it :: it in r ==>
              it.credit in CastList(cast) && it.credit.mediaType != "movie" && it.credit.mediaType != "tv"
              && it.title == OrElse(it.credit.title, OrElse(it.credit.name, "Unknown Title")) && it.title != ""
    ensures NewestFirst(r, EitherDate)
    ensures cast.Some? ==> r <= FullFilmography(cast.value, IsOtherCredit, OtherTitle, EitherDate)
    ensures |r| == if showAllOthers || CategoryCount(cast, IsOtherCredit) <= 20 then CategoryCount(cast, IsOtherCredit) else 20
    ensures showAllOthers ==> multiset(r) == multiset(Titled(CastList(cast), IsOtherCredit, OtherTitle))
  {
    FilmographyShowsItsCategory(cast, IsOtherCredit, OtherTitle, EitherDate, showAllOthers);
    Filmography(cast, IsOtherCredit, OtherTitle, EitherDate, showAllOthers)
  }

  // ---------------------------------------------------------------------------
  // Counts

  /** `credits?.cast ?? []`. */
  function CastList(cast: Option<seq<Credit>>): seq<Credit>
  {
    if cast.Some? then cast.value else []
  }

  /** The size of one category of the cast list. */
  function CategoryCount(cast: Option<seq<Credit>>, p: Credit -> bool): nat
  {
    |Filter(CastList(cast), p)|
  }

  /** A category's "show all" button appears exactly when its capped list leaves something out. */
  lemma HasMoreIffCapped(cast: Option<seq<Credit>>, p: Credit -> bool, title: Credit -> string,
                         key: SortKey)
    ensures CategoryCount(cast, p) > 20 <==> |Filmography(cast, p, title, key, false)| < CategoryCount(cast, p)
  {
  }

  /** Every cast credit is counted in exactly one of the three categories. */
  lemma {:induction false} CategoryCountsAdd(cast: seq<Credit>)
    ensures |Filter(cast, IsMovieCredit)| + |Filter(cast, IsTvCredit)| + |Filter(cast, IsOtherCredit)| == |cast|
  {
    if cast != [] {
      CategoryCountsAdd(cast[1..]);
    }
  }
}
