/** The `filteredResults` store slice: the movie and series lists of the last filtered search,
    with its flags, and the six reducers that change it in place. */
module FilteredResults {

  import opened Common
  import opened Media

  /** The slice's state as a value. */
  datatype FilteredResultsState = FilteredResultsState(
    filteredMovies: seq<MovieInfo>,
    filteredSeries: seq<SeriesInfo>,
    filtersApplied: bool,
    isLoading: bool,
    error: Option<string>)

  /** `clearFilteredResults` on a state value: both lists emptied, the flag and the error reset,
      the loading flag left as it was. */
  function Cleared(s: FilteredResultsState): FilteredResultsState
  {
    s.(filteredMovies := [], filteredSeries := [], filtersApplied := false, error := None)
  }

  /** Clearing twice is clearing once, and clearing never touches the loading flag. */
  lemma ClearIsIdempotent(s: FilteredResultsState)
    ensures Cleared(Cleared(s)) == Cleared(s)
    ensures Cleared(s).isLoading == s.isLoading
  {
  }

  class FilteredResultsStore {
    var filteredMovies: seq<MovieInfo>
    var filteredSeries: seq<SeriesInfo>
    var filtersApplied: bool
    var isLoading: bool
    var error: Option<string>

    function State(): FilteredResultsState
      reads this
    {
      FilteredResultsState(filteredMovies, filteredSeries, filtersApplied, isLoading, error)
    }

    /** `initialState`: no results, no filters applied, not loading, no error. */
    constructor ()
      ensures filteredMovies == [] && filteredSeries == []
      ensures !filtersApplied && !isLoading && error == None
    {
      filteredMovies := [];
      filteredSeries := [];
      filtersApplied := false;
      isLoading := false;
      error := None;
    }

    method SetFilteredMovies(payload: seq<MovieInfo>)
      modifies this
      ensures State() == old(State()).(filteredMovies := payload)
    {
      filteredMovies := payload;
    }

    method SetFilteredSeries(payload: seq<SeriesInfo>)
      modifies this
      ensures State() == old(State()).(filteredSeries := payload)
    {
      filteredSeries := payload;
    }

    method SetFiltersApplied(payload: bool)
      modifies this
      ensures State() == old(State()).(filtersApplied := payload)
    {
      filtersApplied := payload;
    }

    method ClearFilteredResults()
      modifies this
      ensures filteredMovies == [] && filteredSeries == [] && !filtersApplied && error == None
      ensures isLoading == old(isLoading)
      ensures State() == Cleared(old(State()))
    {
      filteredMovies := [];
      filteredSeries := [];
      filtersApplied := false;
      error := None;
    }

    method SetLoading(payload: bool)
      modifies this
      ensures State() == old(State()).(isLoading := payload)
    {
      isLoading := payload;
    }

    method SetError(payload: Option<string>)
      modifies this
      ensures State() == old(State()).(error := payload)
    {
      error := payload;
    }
  }
}
