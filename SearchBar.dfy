/** The header search bar: the typed input, the debounced query that drives the multi-search
    request, the stored results shown in the dropdown, and the handlers that navigate away and
    clear both. The 500 ms timer is an abstract event: typing a new value cancels the pending
    timer and schedules a new one for that value, and firing copies it into the debounced query. */
module SearchBar {

  import opened Common
  import opened Text
  import opened Media

  /** What the bar holds: the input text, the debounced query, the value a scheduled timer will
      copy into the query (nothing when no timer is pending), and the stored search results. */
  datatype BarState = BarState(
    input: string, debouncedQuery: string, pending: Option<string>, storedResults: seq<SearchItem>)

  /** A pending timer always carries the current input, and with no timer pending the debounced
      query has caught up with the input. */
  predicate Settled(s: BarState)
  {
    (s.pending.Some? ==> s.pending.value == s.input)
    && (s.pending.None? ==> s.debouncedQuery == s.input)
  }

  /** `setInput(v)`: a value equal to the current one changes nothing (the effect on `input` does
      not re-run); a new value replaces the input and reschedules the timer for it. */
  function Typed(s: BarState, v: string): (r: BarState)
    ensures r.input == v && r.debouncedQuery == s.debouncedQuery && r.storedResults == s.storedResults
    ensures Settled(s) ==> Settled(r)
  {
    if v == s.input then s else s.(input := v, pending := Some(v))
  }

  /** The timer fires: the pending value becomes the debounced query. */
  function Fired(s: BarState): (r: BarState)
    ensures r.pending.None? && r.input == s.input && r.storedResults == s.storedResults
    ensures Settled(s) ==> Settled(r) && r.debouncedQuery == s.input
  {
    if s.pending.Some? then s.(debouncedQuery := s.pending.value, pending := None) else s
  }

  /** Typing a run of values in turn, with no timer firing in between. */
  function TypedAll(s: BarState, vs: seq<string>): BarState
    decreases |vs|
  {
    if vs == [] then s else TypedAll(Typed(s, vs[0]), vs[1..])
  }

  lemma {:induction false} TypedAllKeepsQuery(s: BarState, vs: seq<string>)
    requires Settled(s)
    ensures var t := TypedAll(s, vs);
            Settled(t) && t.debouncedQuery == s.debouncedQuery && t.storedResults == s.storedResults
            && (vs != [] ==> t.input == vs[|vs| - 1])
    decreases |vs|
  {
    if vs != [] {
      TypedAllKeepsQuery(Typed(s, vs[0]), vs[1..]);
    }
  }

  /** The debounce: however many values are typed before the timer fires, none of them reaches
      the query except the last. */
  lemma DebounceKeepsLastValue(s: BarState, vs: seq<string>)
    requires Settled(s) && vs != []
    ensures Fired(TypedAll(s, vs)).debouncedQuery == vs[|vs| - 1]
    ensures TypedAll(s, vs).debouncedQuery == s.debouncedQuery
  {
    TypedAllKeepsQuery(s, vs);
  }

  /** `/results/{slug(query)}`. */
  function ResultsPath(query: string): (r: string)
    ensures |r| >= 9 && r[..9] == "/results/" && r[9..] == Slug(query)
  {
    "/results/" + Slug(query)
  }

  /** The state after any navigation or an outside click: the input typed away to "" and the
      stored results emptied. */
  function Cleared(s: BarState): (r: BarState)
    ensures r.input == "" && r.storedResults == [] && r.debouncedQuery == s.debouncedQuery
    ensures Settled(s) ==> Settled(r)
  {
    Typed(s, "").(storedResults := [])
  }

  class SearchBarView {
    const apiKey: string
    var input: string
    var debouncedQuery: string
    var pending: Option<string>
    var storedResults: seq<SearchItem>

    function State(): BarState
      reads this
    {
      BarState(input, debouncedQuery, pending, storedResults)
    }

    predicate Valid()
      reads this
    {
      Settled(State())
    }

    /** Mounting: empty input and query, no stored results, and the first timer scheduled. */
    constructor(apiKey: string)
      ensures Valid()
      ensures this.apiKey == apiKey
      ensures State() == BarState("", "", Some(""), [])
    {
      this.apiKey := apiKey;
      input := "";
      debouncedQuery := "";
      pending := Some("");
      storedResults := [];
    }

    /** The request the search effect sends for the current debounced query. */
    function SearchRequest(): string
      reads this
    {
      SearchUrl(apiKey, debouncedQuery)
    }

    /** The search effect's first run, on mount: it sends the request for the debounced query
        as it is, which right after construction is the empty query. */
    method OnMount() returns (request: string)
      ensures request == SearchUrl(apiKey, debouncedQuery)
    {
      request := SearchRequest();
    }

    /** A change event of the input field. */
    method OnInputChange(v: string)
      requires Valid()
      modifies this
      ensures Valid()
      ensures State() == Typed(old(State()), v)
    {
      if v != input {
        input := v;
        pending := Some(v);
      }
    }

    /** The pending timer fires: the debounced query takes the typed value, and when that changes
        the query the search effect sends a new request for it. */
    method OnTimerFires() returns (request: Option<string>)
      requires Valid()
      modifies this
      ensures Valid()
      ensures State() == Fired(old(State()))
      ensures debouncedQuery == input
      ensures request.Some? <==> debouncedQuery != old(debouncedQuery)
      ensures request.Some? ==> request.value == SearchRequest()
    {
      request := None;
      if pending.Some? {
        var next := pending.value;
        pending := None;
        if next != debouncedQuery {
          debouncedQuery := next;
          request := Some(SearchRequest());
        }
      }
    }

    /** A search response: the `results` of a loaded response replace the stored results; a
        rejected request changes nothing. */
    method OnSearchResponse(response: Option<seq<SearchItem>>)
      modifies this
      ensures State() == if response.Some? then old(State()).(storedResults := response.value) else old(State())
    {
      if response.Some? {
        storedResults := response.value;
      }
    }

    /** Empties the input and the stored results. */
    method Clear()
      requires Valid()
      modifies this
      ensures Valid()
      ensures State() == Cleared(old(State()))
    {
      OnInputChange("");
      storedResults := [];
    }

    /** A mousedown: outside the bar it clears the input and the results; inside it changes
        nothing. */
    method OnMouseDown(insideBar: bool)
      requires Valid()
      modifies this
      ensures Valid()
      ensures State() == if insideBar then old(State()) else Cleared(old(State()))
    {
      if !insideBar {
        Clear();
      }
    }

    /** `handleMovieClick`, `handleSeriesClick` and `handlePerson`: navigate to the item's page
        and clear. */
    method OnMovieClick(movie: MovieInfo) returns (path: string)
      requires Valid()
      modifies this
      ensures Valid()
      ensures path == MoviePath(movie.id, movie.title)
      ensures State() == Cleared(old(State()))
    {
      path := MoviePath(movie.id, movie.title);
      Clear();
    }

    method OnSeriesClick(series: SeriesInfo) returns (path: string)
      requires Valid()
      modifies this
      ensures Valid()
      ensures path == SeriesPath(series.id, series.name)
      ensures State() == Cleared(old(State()))
    {
      path := SeriesPath(series.id, series.name);
      Clear();
    }

    method OnPersonClick(person: PersonInfo) returns (path: string)
      requires Valid()
      modifies this
      ensures Valid()
      ensures path == PersonPath(person.id, person.name)
      ensures State() == Cleared(old(State()))
    {
      path := PersonPath(person.id, person.name);
      Clear();
    }

    /** `handleKeyDown`: Enter with a non-empty debounced query navigates to its results page and
        clears; any other key, or Enter with an empty query, changes nothing. */
    method OnKeyDown(key: string) returns (navigation: Option<string>)
      requires Valid()
      modifies this
      ensures Valid()
      ensures navigation.Some? <==> key == "Enter" && old(debouncedQuery) != ""
      ensures navigation.Some? ==> navigation.value == ResultsPath(old(debouncedQuery))
                                   && State() == Cleared(old(State()))
      ensures navigation.None? ==> State() == old(State())
    {
      navigation := None;
      if key == "Enter" && |debouncedQuery| > 0 {
        navigation := Some(ResultsPath(debouncedQuery));
        Clear();
      }
    }

    /** `handleSearchClick`: always navigates to the results page of the debounced query, empty
        or not, and clears. */
    method OnSearchClick() returns (path: string)
      requires Valid()
      modifies this
      ensures Valid()
      ensures path == ResultsPath(old(debouncedQuery))
      ensures State() == Cleared(old(State()))
    {
      path := ResultsPath(debouncedQuery);
      Clear();
    }

    /** The dropdown renders exactly when there are stored results, which is exactly when at least
        one of its movie, TV and person sections has an entry. */
    function DropdownVisible(): (r: bool)
      reads this
      ensures r <==> |MoviesOf(storedResults)| + |SeriesOf(storedResults)| + |PersonsOf(storedResults)| > 0
    {
      PartitionIsExact(storedResults);
      |storedResults| > 0
    }
  }

  /** Every way of leaving the bar hides the dropdown: a cleared state has no stored results, so
      none of the three sections has an entry. */
  lemma ClearedHidesDropdown(s: BarState)
    ensures var r := Cleared(s);
            MoviesOf(r.storedResults) == [] && SeriesOf(r.storedResults) == [] && PersonsOf(r.storedResults) == []
  {
  }
}
