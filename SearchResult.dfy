/** The search-result screen: a free-text search mode driven by the route's slug, and a filter
    mode driven by the URL's query parameters, in which the screen asks the discover endpoints for
    five pages of movies and five of series and stores their concatenation. */
module SearchResult {

  import opened Common
  import opened Text
  import opened Media
  import opened Genres
  import opened FilteredResults

  // ---------------------------------------------------------------------------
  // Checkbox toggles

  /** The predicate `g => g !== x` of the toggles. */
  function Other<T(==)>(x: T): T -> bool
  {
    (y: T) => y != x
  }

  /** The state updater of `toggleGenre` and `toggleCountry`: a selected value is removed (every
      copy of it), an unselected one is appended at the end. */
  function Toggle<T(==,!new)>(s: seq<T>, x: T): (r: seq<T>)
    ensures x in r <==> x !in s
    ensures forall y :: y != x ==> (y in r <==> y in s)
  {
    if x in s then Filter(s, Other(x)) else s + [x]
  }

  /** Ticking an unticked box and then unticking it gives back the selection as it was, order
      included. */
  lemma ToggleTwiceRestores<T(!new)>(s: seq<T>, x: T)
    requires x !in s
    ensures Toggle(Toggle(s, x), x) == s
  {
    assert x in s + [x];
    FilterAppend(s, [x], Other(x));
    assert [x][1..] == [];
    FilterAll(s, Other(x));
  }

  /** Unticking a ticked box and ticking it again keeps the other values in order and moves this
      one to the end. */
  lemma ToggleTwiceMovesToEnd<T(!new)>(s: seq<T>, x: T)
    requires x in s
    ensures Toggle(Toggle(s, x), x) == Filter(s, Other(x)) + [x]
  {
  }

  /** Toggling keeps a selection free of duplicates. */
  lemma ToggleKeepsDistinct<T(!new)>(s: seq<T>, x: T)
    requires Distinct(s)
    ensures Distinct(Toggle(s, x))
  {
    if x in s {
      FilterDistinct(s, Other(x));
    } else {
      var r := s + [x];
      forall i, j | 0 <= i < j < |r| ensures r[i] != r[j] {
        if j == |s| {
          assert r[i] == s[i];
        } else {
          assert r[i] == s[i] && r[j] == s[j];
        }
      }
    }
  }

  // ---------------------------------------------------------------------------
  // Query parameters

  /** A parsed query string: parameter name to value (only the first value of a repeated name is
      ever read). */
  type Query = map<string, string>

  /** The filter selection a query string carries. */
  datatype FilterSelection = FilterSelection(
    genres: seq<nat>, countries: seq<string>, yearFrom: nat, yearTo: nat)

  /** The condition for filter mode: a genres or countries parameter, and both year parameters. */
  predicate IsFilterQuery(q: Query)
    ensures IsFilterQuery(q) ==> "yearFrom" in q && "yearTo" in q
    ensures !("genres" in q || "countries" in q) ==> !IsFilterQuery(q)
  {
    ("genres" in q || "countries" in q) && "yearFrom" in q && "yearTo" in q
  }

  /** Every comma-separated piece is a decimal numeral (the empty piece included). */
  predicate NumeralList(s: string)
  {
    forall piece :: piece in Split(s, ',') ==> IsNumeral(piece)
  }

  /** The numeric parameters hold decimal numerals wherever they are present. */
  predicate NumericParams(q: Query)
  {
    && ("genres" in q ==> NumeralList(q["genres"]))
    && ("yearFrom" in q ==> IsNumeral(q["yearFrom"]))
    && ("yearTo" in q ==> IsNumeral(q["yearTo"]))
  }

  /** `param.split(",").map(Number)`: one number per comma-separated piece, in order. */
  function ParseIds(s: string): (r: seq<nat>)
    requires NumeralList(s)
    ensures |r| == |Split(s, ',')|
    ensures forall k :: 0 <= k < |r| ==> r[k] == ParseDecimal(Split(s, ',')[k])
  {
    var pieces := Split(s, ',');
    seq(|pieces|, k requires 0 <= k < |pieces| => ParseDecimal(pieces[k]))
  }

  /** What the location effect reads from the query string: nothing outside filter mode; in filter
      mode the genre ids and countries of the non-empty list parameters (an absent or empty one
      reads as the empty list) and the two years. */
  function ReadFilterParams(q: Query): (r: Option<FilterSelection>)
    requires NumericParams(q)
    ensures r.Some? <==> IsFilterQuery(q)
    ensures r.Some? && ("genres" !in q || q["genres"] == "") ==> r.value.genres == []
    ensures r.Some? && ("countries" !in q || q["countries"] == "") ==> r.value.countries == []
    ensures r.Some? && "genres" in q && q["genres"] != "" ==>
              |r.value.genres| == |Split(q["genres"], ',')|
              && forall k :: 0 <= k < |r.value.genres| ==>
                   r.value.genres[k] == ParseDecimal(Split(q["genres"], ',')[k])
    ensures r.Some? ==> r.value.yearFrom == ParseDecimal(q["yearFrom"]) && r.value.yearTo == ParseDecimal(q["yearTo"])
    ensures r.Some? && "countries" in q && q["countries"] != "" ==>
              Join(r.value.countries, ',') == q["countries"]
  {
    if IsFilterQuery(q) then
      var genres := if "genres" in q && q["genres"] != "" then ParseIds(q["genres"]) else [];
      var countries := if "countries" in q && q["countries"] != "" then Split(q["countries"], ',') else [];
      assert "countries" in q ==> Join(Split(q["countries"], ','), ',') == q["countries"] by {
        if "countries" in q { JoinOfSplit(q["countries"], ','); }
      }
      Some(FilterSelection(genres, countries, ParseDecimal(q["yearFrom"]), ParseDecimal(q["yearTo"])))
    else
      None
  }

  /** `ids.join(",")` for a list of numbers. */
  function IdList(ids: seq<nat>): (r: string)
    ensures ids != [] ==> r != []
  {
    Join(Rendered(ids), ',')
  }

  /** Each number rendered in decimal. */
  function Rendered(ids: seq<nat>): (r: seq<string>)
    ensures |r| == |ids|
    ensures forall k :: 0 <= k < |r| ==> r[k] == NatToString(ids[k])
  {
    seq(|ids|, k requires 0 <= k < |ids| => NatToString(ids[k]))
  }

  /** The query `handleFilterSubmit` navigates to: both years always, the genres when some are
      selected, the countries when their comma-joined text is not empty. */
  function BuildQuery(sel: FilterSelection): (q: Query)
    ensures "yearFrom" in q && q["yearFrom"] == NatToString(sel.yearFrom)
    ensures "yearTo" in q && q["yearTo"] == NatToString(sel.yearTo)
    ensures "genres" in q <==> sel.genres != []
    ensures "genres" in q ==> q["genres"] == IdList(sel.genres)
    ensures "countries" in q <==> Join(sel.countries, ',') != ""
    ensures "countries" in q ==> q["countries"] == Join(sel.countries, ',')
    ensures forall k :: k in q ==> k in {"yearFrom", "yearTo", "genres", "countries"}
  {
    var years := map["yearFrom" := NatToString(sel.yearFrom), "yearTo" := NatToString(sel.yearTo)];
    var withGenres := if sel.genres != [] then years["genres" := IdList(sel.genres)] else years;
    if sel.countries != [] && Join(sel.countries, ',') != "" then
      withGenres["countries" := Join(sel.countries, ',')]
    else
      withGenres
  }

  /** Reading back a decimal id list gives the ids. */
  lemma IdListReadsBack(ids: seq<nat>)
    requires ids != []
    ensures NumeralList(IdList(ids))
    ensures IdList(ids) != "" && ParseIds(IdList(ids)) == ids
  {
    var pieces := Rendered(ids);
    forall k | 0 <= k < |pieces| ensures ',' !in pieces[k] {
      assert IsNumeral(pieces[k]);
    }
    SplitOfJoin(pieces, ',');
    forall k | 0 <= k < |ids| ensures ParseDecimal(pieces[k]) == ids[k] {
      ParseOfNatToString(ids[k]);
    }
  }

  /** A submitted selection survives the trip through the URL: the location effect reads back
      the same genres and years, and the same countries unless their joined text is empty (then
      none), so a submit with genres always lands in filter mode. */
  lemma SubmittedFiltersReadBack(sel: FilterSelection)
    requires sel.genres != []
    requires forall c :: c in sel.countries ==> ',' !in c
    ensures NumericParams(BuildQuery(sel))
    ensures ReadFilterParams(BuildQuery(sel)) ==
              Some(sel.(countries := if Join(sel.countries, ',') != "" then sel.countries else []))
  {
    var q := BuildQuery(sel);
    IdListReadsBack(sel.genres);
    ParseOfNatToString(sel.yearFrom);
    ParseOfNatToString(sel.yearTo);
    if Join(sel.countries, ',') != "" {
      assert sel.countries != [];
      forall k | 0 <= k < |sel.countries| ensures ',' !in sel.countries[k] {
        assert sel.countries[k] in sel.countries;
      }
      SplitOfJoin(sel.countries, ',');
    }
  }

  // ---------------------------------------------------------------------------
  // Discover requests and their pages

  datatype Kind = MovieKind | SeriesKind

  /** One discover request: the endpoint, the genre ids, the date bounds, the page, and the
      origin countries when there are any. */
  datatype DiscoverRequest = DiscoverRequest(
    kind: Kind, withGenres: string, dateFrom: string, dateTo: string, page: nat,
    originCountry: Option<string>)

  /** The request URL (the API key is a parameter of the build). */
  function DiscoverUrl(apiKey: string, r: DiscoverRequest): (url: string)
    ensures var endpoint := if r.kind == MovieKind then "https://api.themoviedb.org/3/discover/movie?"
                            else "https://api.themoviedb.org/3/discover/tv?";
            |url| > |endpoint| && url[..|endpoint|] == endpoint
    ensures r.originCountry.Some? ==>
              var tail := "&with_origin_country=" + r.originCountry.value;
              |url| > |tail| && url[|url| - |tail|..] == tail
    ensures r.originCountry.None? ==>
              var tail := "&page=" + NatToString(r.page);
              |url| > |tail| && url[|url| - |tail|..] == tail
  {
    var endpoint := if r.kind == MovieKind then "https://api.themoviedb.org/3/discover/movie?"
                    else "https://api.themoviedb.org/3/discover/tv?";
    var dates := if r.kind == MovieKind then "primary_release_date" else "first_air_date";
    var params := "api_key=" + apiKey + "&with_genres=" + r.withGenres
      + "&" + dates + ".gte=" + r.dateFrom + "&" + dates + ".lte=" + r.dateTo;
    var page := "&page=" + NatToString(r.page);
    if r.originCountry.Some? then
      var country := "&with_origin_country=" + r.originCountry.value;
      ThreeParts(endpoint, params + page, country);
      endpoint + (params + page) + country
    else
      ThreeParts(endpoint, params, page);
      endpoint + params + page
  }

  /** `${year}-01-01` and `${year}-12-31`. */
  function YearStart(year: nat): string
  {
    NatToString(year) + "-01-01"
  }

  function YearEnd(year: nat): string
  {
    NatToString(year) + "-12-31"
  }

  /** The requests of one filtered search: pages 1 to 5 of movies with the selected genre ids
      and pages 1 to 5 of series with the mapped TV genre ids, all with the same year bounds and,
      only when countries are selected, the same origin countries. */
  predicate DiscoverBatch(movieRequests: seq<DiscoverRequest>, seriesRequests: seq<DiscoverRequest>,
                          genres: seq<nat>, countries: seq<string>, fromYear: nat, toYear: nat)
  {
    && |movieRequests| == 5 && |seriesRequests| == 5
    && (forall i :: 0 <= i < 5 ==> movieRequests[i].kind == MovieKind && seriesRequests[i].kind == SeriesKind)
    && (forall i :: 0 <= i < 5 ==> movieRequests[i].page == i + 1 && seriesRequests[i].page == i + 1)
    && (forall i :: 0 <= i < 5 ==> movieRequests[i].withGenres == IdList(genres))
    && (forall i :: 0 <= i < 5 ==> seriesRequests[i].withGenres == IdList(MappedGenres(genres)))
    && (forall r :: r in movieRequests + seriesRequests ==>
          r.dateFrom == YearStart(fromYear) && r.dateTo == YearEnd(toYear)
          && (r.originCountry.Some? <==> countries != [])
          && (r.originCountry.Some? ==> r.originCountry.value == Join(countries, ',')))
  }

  /** The request-building loops of `fetchFilteredResults`. */
  method BuildDiscoverRequests(genres: seq<nat>, countries: seq<string>, fromYear: nat, toYear: nat)
    returns (movieRequests: seq<DiscoverRequest>, seriesRequests: seq<DiscoverRequest>)
    ensures DiscoverBatch(movieRequests, seriesRequests, genres, countries, fromYear, toYear)
  {
    var tvGenreIds := MapMovieToTVGenres(genres);
    var origin := if |countries| > 0 then Some(Join(countries, ',')) else None;
    movieRequests := [];
    for page := 1 to 6
      invariant |movieRequests| == page - 1
      invariant forall i :: 0 <= i < page - 1 ==>
                  movieRequests[i] == DiscoverRequest(MovieKind, IdList(genres), YearStart(fromYear),
                                                      YearEnd(toYear), i + 1, origin)
    {
      movieRequests := movieRequests
        + [DiscoverRequest(MovieKind, IdList(genres), YearStart(fromYear), YearEnd(toYear), page, origin)];
    }
    seriesRequests := [];
    for page := 1 to 6
      invariant |seriesRequests| == page - 1
      invariant forall i :: 0 <= i < page - 1 ==>
                  seriesRequests[i] == DiscoverRequest(SeriesKind, IdList(tvGenreIds), YearStart(fromYear),
                                                       YearEnd(toYear), i + 1, origin)
    {
      seriesRequests := seriesRequests
        + [DiscoverRequest(SeriesKind, IdList(tvGenreIds), YearStart(fromYear), YearEnd(toYear), page, origin)];
    }
  }

  /** The aggregation loops of `fetchFilteredResults`: the pages' results concatenated in page
      order, a page without results adding nothing; any failed page abandons the whole search. */
  method AggregatePages<T>(pages: seq<Response<T>>) returns (all: Option<seq<T>>)
    ensures all.Some? <==> forall k :: 0 <= k < |pages| ==> pages[k].Loaded?
    ensures all.Some? ==> all.value == Flatten(Payloads(pages))
  {
    var acc: seq<T> := [];
    for i := 0 to |pages|
      invariant forall k :: 0 <= k < i ==> pages[k].Loaded?
      invariant acc == Flatten(Payloads(pages[..i]))
    {
      if pages[i].Failed? {
        return None;
      }
      assert Payloads(pages[..i + 1])[..i] == Payloads(pages[..i]);
      acc := acc + Payload(pages[i]);
    }
    assert pages[..|pages|] == pages;
    all := Some(acc);
  }

  /** The options of both year selects: every year from the current one down to 1900, newest
      first (none when the current year is before 1900). */
  function YearOptions(thisYear: nat): (r: seq<nat>)
    ensures |r| == if thisYear >= 1900 then thisYear - 1900 + 1 else 0
    ensures forall i :: 0 <= i < |r| ==> 1900 <= r[i] <= thisYear
    ensures forall i, j :: 0 <= i < j < |r| ==> r[i] > r[j]
    ensures forall y :: 1900 <= y <= thisYear ==> y in r
  {
    if thisYear < 1900 then [] else
      var r := seq(thisYear - 1900 + 1, i requires 0 <= i <= thisYear - 1900 => (thisYear - i) as nat);
      assert forall y :: 1900 <= y <= thisYear ==> y in r by {
        forall y | 1900 <= y <= thisYear ensures y in r { assert r[thisYear - y] == y; }
      }
      r
  }

  // ---------------------------------------------------------------------------
  // The screen's state

  datatype PageState = PageState(
    results: seq<SearchItem>,
    selectedGenres: seq<nat>,
    selectedCountries: seq<string>,
    yearFrom: nat,
    yearTo: nat,
    filtersAreActive: bool,
    genreError: bool,
    searchTrigger: nat)

  /** The default filter: nothing selected, 1990 to the current year, filter mode off. */
  predicate FiltersAtDefault(s: PageState, thisYear: nat)
  {
    s.selectedGenres == [] && s.selectedCountries == [] && s.yearFrom == 1990 && s.yearTo == thisYear
    && !s.filtersAreActive
  }

  class SearchResultPage {
    var results: seq<SearchItem>
    var selectedGenres: seq<nat>
    var selectedCountries: seq<string>
    var yearFrom: nat
    var yearTo: nat
    var filtersAreActive: bool
    var genreError: bool
    var searchTrigger: nat
    /** The `filteredResults` slice the screen reads and dispatches to. */
    const store: FilteredResultsStore

    function State(): PageState
      reads this
    {
      PageState(results, selectedGenres, selectedCountries, yearFrom, yearTo, filtersAreActive,
                genreError, searchTrigger)
    }

    /** The initial state, `thisYear` being the current year. */
    constructor (store: FilteredResultsStore, thisYear: nat)
      ensures this.store == store
      ensures results == [] && FiltersAtDefault(State(), thisYear)
      ensures !genreError && searchTrigger == 0
    {
      this.store := store;
      results := [];
      selectedGenres := [];
      selectedCountries := [];
      yearFrom := 1990;
      yearTo := thisYear;
      filtersAreActive := false;
      genreError := false;
      searchTrigger := 0;
    }

    /** `movies`, `series` and `persons`: the three partitions of the current results. */
    function Partition(): (r: (seq<SearchItem>, seq<SearchItem>, seq<SearchItem>))
      reads this
      ensures |r.0| + |r.1| + |r.2| == |results|
      ensures multiset(r.0) + multiset(r.1) + multiset(r.2) == multiset(results)
    {
      PartitionIsExact(results);
      (MoviesOf(results), SeriesOf(results), PersonsOf(results))
    }

    /** The five setters every reset of the screen runs: nothing selected, 1990 to the current
        year, filter mode off. */
    method RestoreDefaultFilter(thisYear: nat)
      modifies this
      ensures FiltersAtDefault(State(), thisYear)
      ensures State() == old(State()).(selectedGenres := [], selectedCountries := [], yearFrom := 1990,
                                       yearTo := thisYear, filtersAreActive := false)
    {
      selectedGenres := [];
      selectedCountries := [];
      yearFrom := 1990;
      yearTo := thisYear;
      filtersAreActive := false;
    }

    /** The effect on a change of the query string. In filter mode it takes the selection from
        the URL, clears the free-text results and returns the discover requests to send;
        otherwise, only when filter mode was on in the render the effect belongs to (`rendered`),
        it restores the default filter and bumps the search trigger. */
    method OnLocationChange(q: Query, thisYear: nat, rendered: bool)
      returns (requests: Option<(seq<DiscoverRequest>, seq<DiscoverRequest>)>)
      requires NumericParams(q)
      modifies this
      ensures requests.Some? <==> IsFilterQuery(q)
      ensures requests.Some? ==>
                var sel := ReadFilterParams(q).value;
                DiscoverBatch(requests.value.0, requests.value.1, sel.genres, sel.countries, sel.yearFrom, sel.yearTo)
      ensures IsFilterQuery(q) ==>
                var sel := ReadFilterParams(q).value;
                State() == old(State()).(results := [], selectedGenres := sel.genres,
                                         selectedCountries := sel.countries, yearFrom := sel.yearFrom,
                                         yearTo := sel.yearTo, filtersAreActive := true)
      ensures !IsFilterQuery(q) && rendered ==>
                FiltersAtDefault(State(), thisYear)
                && State() == old(State()).(selectedGenres := [], selectedCountries := [], yearFrom := 1990,
                                            yearTo := thisYear, filtersAreActive := false,
                                            searchTrigger := old(searchTrigger) + 1)
      ensures !IsFilterQuery(q) && !rendered ==> State() == old(State())
    {
      var sel := ReadFilterParams(q);
      if sel.Some? {
        selectedGenres := sel.value.genres;
        selectedCountries := sel.value.countries;
        yearFrom := sel.value.yearFrom;
        yearTo := sel.value.yearTo;
        filtersAreActive := true;
        results := [];
        var movieRequests, seriesRequests :=
          BuildDiscoverRequests(sel.value.genres, sel.value.countries, sel.value.yearFrom, sel.value.yearTo);
        requests := Some((movieRequests, seriesRequests));
      } else {
        if rendered {
          RestoreDefaultFilter(thisYear);
          searchTrigger := searchTrigger + 1;
        }
        requests := None;
      }
    }

    /** The completion of `fetchFilteredResults`: when every page of both kinds loaded, the
        concatenated movies and series are stored; a single failure stores nothing. */
    method OnFilteredPages(moviePages: seq<Response<MovieInfo>>, seriesPages: seq<Response<SeriesInfo>>)
      modifies store
      ensures var loaded := (forall k :: 0 <= k < |moviePages| ==> moviePages[k].Loaded?)
                            && (forall k :: 0 <= k < |seriesPages| ==> seriesPages[k].Loaded?);
              store.State() == if loaded then
                                 old(store.State()).(filteredMovies := Flatten(Payloads(moviePages)),
                                                     filteredSeries := Flatten(Payloads(seriesPages)))
                               else old(store.State())
    {
      var allMovies := AggregatePages(moviePages);
      var allSeries := AggregatePages(seriesPages);
      if allMovies.Some? && allSeries.Some? {
        store.SetFilteredMovies(allMovies.value);
        store.SetFilteredSeries(allSeries.value);
      }
    }

    /** The search effect, run on a new slug or a bumped trigger. Without a slug nothing happens;
        otherwise, when filter mode was on in the render the effect belongs to (`rendered`), it
        first drops back to the default filter and clears the error, the stored filtered lists and
        the results; the search request is returned. */
    method OnSearchEffect(apiKey: string, slug: string, thisYear: nat, rendered: bool)
      returns (request: Option<string>)
      modifies this, store
      ensures request.Some? <==> slug != ""
      ensures request.Some? ==> request.value == SearchUrl(apiKey, slug)
      ensures slug == "" || !rendered ==>
                State() == old(State()) && store.State() == old(store.State())
      ensures slug != "" && rendered ==>
                FiltersAtDefault(State(), thisYear)
                && State() == old(State()).(results := [], selectedGenres := [], selectedCountries := [],
                                            yearFrom := 1990, yearTo := thisYear, filtersAreActive := false,
                                            genreError := false)
                && store.State() == old(store.State()).(filteredMovies := [], filteredSeries := [])
    {
      if slug == "" {
        return None;
      }
      if rendered {
        store.SetFilteredMovies([]);
        store.SetFilteredSeries([]);
        RestoreDefaultFilter(thisYear);
        genreError := false;
        results := [];
      }
      request := Some(SearchUrl(apiKey, slug));
    }

    /** One commit of the screen: the effects whose dependencies changed run in declaration order
        (the location effect when the query string changed, the search effect when the slug or
        the trigger did), and both read filter mode as it was in the render being committed, not
        as the other effect leaves it. So reloading a filter URL keeps filter mode, and leaving
        one for a plain search clears the filter. */
    method Commit(q: Query, locationChanged: bool, searchChanged: bool, apiKey: string, slug: string,
                  thisYear: nat)
      returns (requests: Option<(seq<DiscoverRequest>, seq<DiscoverRequest>)>, request: Option<string>)
      requires NumericParams(q)
      modifies this, store
      ensures requests.Some? <==> locationChanged && IsFilterQuery(q)
      ensures requests.Some? ==>
                var sel := ReadFilterParams(q).value;
                DiscoverBatch(requests.value.0, requests.value.1, sel.genres, sel.countries, sel.yearFrom, sel.yearTo)
      ensures request.Some? <==> searchChanged && slug != ""
      ensures request.Some? ==> request.value == SearchUrl(apiKey, slug)
      // A search while filter mode was on in the render: whatever the location effect did, the
      // search effect ends at the default filter and empties the stored lists.
      ensures searchChanged && slug != "" && old(filtersAreActive) ==>
                FiltersAtDefault(State(), thisYear)
                && State() == old(State()).(results := [], selectedGenres := [], selectedCountries := [],
                                            yearFrom := 1990, yearTo := thisYear, filtersAreActive := false,
                                            genreError := false,
                                            searchTrigger := old(searchTrigger)
                                              + (if locationChanged && !IsFilterQuery(q) then 1 else 0))
                && store.State() == old(store.State()).(filteredMovies := [], filteredSeries := [])
      // Otherwise the store is untouched and the location effect alone decides the state: a filter
      // query (a reload, or the navigation after a submit) sets the URL's selection and filter
      // mode; leaving filter mode restores the defaults and bumps the trigger; else nothing.
      ensures !(searchChanged && slug != "" && old(filtersAreActive)) ==> store.State() == old(store.State())
      ensures !(searchChanged && slug != "" && old(filtersAreActive)) && locationChanged && IsFilterQuery(q) ==>
                var sel := ReadFilterParams(q).value;
                State() == old(State()).(results := [], selectedGenres := sel.genres,
                                         selectedCountries := sel.countries, yearFrom := sel.yearFrom,
                                         yearTo := sel.yearTo, filtersAreActive := true)
      ensures !(searchChanged && slug != "" && old(filtersAreActive)) && locationChanged && !IsFilterQuery(q)
              && old(filtersAreActive) ==>
                FiltersAtDefault(State(), thisYear)
                && State() == old(State()).(selectedGenres := [], selectedCountries := [], yearFrom := 1990,
                                            yearTo := thisYear, filtersAreActive := false,
                                            searchTrigger := old(searchTrigger) + 1)
      ensures !(searchChanged && slug != "" && old(filtersAreActive))
              && (!locationChanged || (!IsFilterQuery(q) && !old(filtersAreActive))) ==>
                State() == old(State())
    {
      var rendered := filtersAreActive;
      requests, request := None, None;
      if locationChanged {
        requests := OnLocationChange(q, thisYear, rendered);
      }
      if searchChanged {
        request := OnSearchEffect(apiKey, slug, thisYear, rendered);
      }
    }

    /** The completion of a free-text search: the results list, or an empty list when the
        response has none; a failed request leaves the results as they were. */
    method OnSearchResponse(response: Response<SearchItem>)
      modifies this
      ensures State() == old(State()).(results := if response.Loaded? then Payload(response) else old(results))
    {
      if response.Loaded? {
        results := Payload(response);
      }
    }

    /** `toggleGenre`: clears the validation error and toggles the id. */
    method ToggleGenre(id: nat)
      modifies this
      ensures State() == old(State()).(genreError := false, selectedGenres := Toggle(old(selectedGenres), id))
    {
      if genreError {
        genreError := false;
      }
      selectedGenres := Toggle(selectedGenres, id);
    }

    /** The "from" year select: the chosen option becomes `yearFrom`; nothing else changes. */
    method SetYearFrom(year: nat)
      modifies this
      ensures State() == old(State()).(yearFrom := year)
    {
      yearFrom := year;
    }

    /** The "to" year select: the chosen option becomes `yearTo`; nothing else changes. */
    method SetYearTo(year: nat)
      modifies this
      ensures State() == old(State()).(yearTo := year)
    {
      yearTo := year;
    }

    /** `toggleCountry`: toggles the country code. */
    method ToggleCountry(iso: string)
      modifies this
      ensures State() == old(State()).(selectedCountries := Toggle(old(selectedCountries), iso))
    {
      selectedCountries := Toggle(selectedCountries, iso);
    }

    /** `handleFilterSubmit`: clears the results and turns filter mode on before validating; with
        no genre selected it raises the error and does not navigate, otherwise it returns the
        query string to navigate to. */
    method SubmitFilters() returns (navigation: Option<Query>)
      modifies this
      ensures navigation.Some? <==> old(selectedGenres) != []
      ensures navigation.Some? ==>
                navigation.value == BuildQuery(FilterSelection(selectedGenres, selectedCountries, yearFrom, yearTo))
      ensures State() == old(State()).(results := [], filtersAreActive := true,
                                       genreError := old(genreError) || old(selectedGenres) == [])
    {
      results := [];
      filtersAreActive := true;
      if |selectedGenres| == 0 {
        genreError := true;
        return None;
      }
      navigation := Some(BuildQuery(FilterSelection(selectedGenres, selectedCountries, yearFrom, yearTo)));
    }

    /** `handleResetFilters`: the default filter, no error, empty stored lists, and a navigation
        to the current path without a query string; with a slug the trigger is bumped and the
        search request is returned. */
    method ResetFilters(apiKey: string, slug: string, thisYear: nat)
      returns (navigation: Query, request: Option<string>)
      modifies this, store
      ensures navigation == map[] && !IsFilterQuery(navigation)
      ensures FiltersAtDefault(State(), thisYear) && !genreError
      ensures State() == old(State()).(selectedGenres := [], selectedCountries := [], yearFrom := 1990,
                                       yearTo := thisYear, filtersAreActive := false, genreError := false,
                                       searchTrigger := if slug != "" then old(searchTrigger) + 1 else old(searchTrigger))
      ensures store.State() == old(store.State()).(filteredMovies := [], filteredSeries := [])
      ensures request.Some? <==> slug != ""
      ensures request.Some? ==> request.value == SearchUrl(apiKey, slug)
    {
      store.SetFilteredMovies([]);
      store.SetFilteredSeries([]);
      RestoreDefaultFilter(thisYear);
      genreError := false;
      navigation := map[];
      request := None;
      if slug != "" {
        searchTrigger := searchTrigger + 1;
        request := Some(SearchUrl(apiKey, slug));
      }
    }
  }
}
