# CineAura front-end core in Dafny

CineAura is a React front end for browsing films, TV series and people from The Movie Database
(TMDB). This project models the logic of its screens and stores:

- the **search-result screen**: the movie and TV genre tables, the movie-to-TV genre mapping,
  the URL-driven filter mode, the genre and country toggles, filter submission and reset, the
  discover requests for pages 1 to 5, the aggregation of their pages, and the partition of
  free-text results (`SearchResult`, `Genres`, `GenreFacts`);
- the **home carousel**: wrap-around stepping forwards, backwards and by the auto-slide tick, and
  click navigation (`HomeTop`);
- the **movie, series and person detail pages**: runtime formatting, trailer choice, the cast,
  director and review selectors, expansion toggles, review truncation, the season list,
  pluralisation, age, and the three filmography lists with their counts (`MediaDetail`,
  `MovieDetail`, `SeriesDetail`, `PersonDetail`);
- the **search bar**: the debounce as abstract "type" and "timer fires" events, the request it
  triggers, navigation by item click, Enter or the search icon, and the clearing that follows
  (`SearchBar`);
- the **filtered-results and dark-theme stores**: their reducers as classes whose methods say
  what changes and that nothing else does (`FilteredResults`, `DarkTheme`).

The modules `Common` (filter, find, slice, flatten, option and response types), `Text`
(lower-casing, the URL slug, `includes`, `join`/`split`, decimal rendering and parsing) and
`Media` (the search-result tagged union, its partition and the page paths) hold what the screens
share.

Where the source mutates state (React state setters, Redux reducers, the loops that build the
request lists and the season list), the model is a class or a method with `modifies`. Each
class has a `State()` function, and each method's contract gives its whole new state in terms
of the old one. Pure expressions (selectors, filters, the sort, the age rule) are functions
whose contracts or lemmas state what they promise. Network responses, the clock, the current
year, `localStorage` and the API key are parameters.

## Model

| member | source | states |
|---|---|---|
| Genres.TvGenreForBounds | frontend/cine-app/src/components/SearchResult/SearchResult.tsx:124-142 | an id outside the movie table maps to nothing; a mapped id is the id of a TV genre whose name matches (either lower-cased name contains the other) the name of the movie genre with that id; a movie genre no TV name matches maps to nothing |
| Genres.TvGenreFor | frontend/cine-app/src/components/SearchResult/SearchResult.tsx:128-136 | a movie id gets a TV id only when it is in the movie genre table, and that TV id is in the TV genre table (the first TV genre whose lower-cased name contains the movie genre's or is contained in it) |
| Genres.MapMovieToTVGenres | frontend/cine-app/src/components/SearchResult/SearchResult.tsx:124-142 | the loop pushes, in input order, the TV id of each movie id that has one; the result is no longer than the input and holds only TV-table ids |
| Genres.MappedGenresBounds | frontend/cine-app/src/components/SearchResult/SearchResult.tsx:124-142 | the mapping never returns more ids than it got, and every returned id is in the TV table |
| Genres.MappedGenres | frontend/cine-app/src/components/SearchResult/SearchResult.tsx:124-142 | every TV id in the mapped list is the lookup result of some id of the input list |
| Genres.MappedGenresAppend | frontend/cine-app/src/components/SearchResult/SearchResult.tsx:126-141 | the mapping keeps input order: mapping a concatenation maps each part in turn |
| GenreFacts.MapAction | frontend/cine-app/src/components/SearchResult/SearchResult.tsx:28-67 | movie genre 28 (Action) maps to TV genre 10759 (Action & Adventure) |
| GenreFacts.MapAdventure | frontend/cine-app/src/components/SearchResult/SearchResult.tsx:28-67 | movie genre 12 (Adventure) also maps to 10759 |
| GenreFacts.MapAnimation | frontend/cine-app/src/components/SearchResult/SearchResult.tsx:28-67 | movie genre 16 (Animation) passes over "Action & Adventure" and maps to TV genre 16 |
| GenreFacts.AnimationVsActionAdventure | frontend/cine-app/src/components/SearchResult/SearchResult.tsx:130-135 | neither of "Action & Adventure" and "Animation" contains the other, ignoring case |
| GenreFacts.SharedTvGenreRepeats | frontend/cine-app/src/components/SearchResult/SearchResult.tsx:124-142 | two movie ids with the same TV id yield that id twice, so the result can hold duplicates |
| Media.MediaType | frontend/cine-app/src/types/SearchType.ts:2-54 | `media_type` is "movie", "tv" or "person" exactly for the movie, series and person variants |
| Media.PartitionIsDisjoint | frontend/cine-app/src/components/SearchResult/SearchResult.tsx:328-336 | each bucket holds only its own variant, taken from the results, so no item lands in two buckets |
| Media.PartitionIsExact | frontend/cine-app/src/components/SearchBar/SearchBar.tsx:68-74 | the three buckets together hold every result exactly as often as the results do |
| Media.PartitionKeepsOrder | frontend/cine-app/src/components/SearchResult/SearchResult.tsx:328-336 | each bucket is an order-preserving filter: partitioning a concatenation concatenates the partitions |
| Media.MoviePath | frontend/cine-app/src/components/SearchBar/SearchBar.tsx:76-78 | the path starts with `/movie/`, ends with `/` and the slug of the title, and the segment between reads back as the movie's id |
| Media.SeriesPath | frontend/cine-app/src/components/SearchBar/SearchBar.tsx:83-85 | the path starts with `/webseries/`, ends with `/` and the slug of the name, and the segment between reads back as the series' id |
| Media.PersonPath | frontend/cine-app/src/components/SearchBar/SearchBar.tsx:90-92 | the path starts with `/person/`, ends with `/` and the slug of the name, and the segment between reads back as the person's id |
| Media.SearchUrl | frontend/cine-app/src/components/SearchBar/SearchBar.tsx:35-38 | the multi-search URL carries the query verbatim as its `query` parameter and always ends by excluding adult results |
| SearchResult.Toggle | frontend/cine-app/src/components/SearchResult/SearchResult.tsx:339-353 | the toggled element is in the result iff it was not in the list; every other element's membership is unchanged |
| SearchResult.ToggleTwiceRestores | frontend/cine-app/src/components/SearchResult/SearchResult.tsx:339-353 | toggling an absent id twice restores the list exactly |
| SearchResult.ToggleTwiceMovesToEnd | frontend/cine-app/src/components/SearchResult/SearchResult.tsx:339-353 | toggling a present id twice moves it to the end |
| SearchResult.ToggleKeepsDistinct | frontend/cine-app/src/components/SearchResult/SearchResult.tsx:339-353 | toggling keeps a duplicate-free selection duplicate-free |
| SearchResult.ParseIds | frontend/cine-app/src/components/SearchResult/SearchResult.tsx:258 | `split(",").map(Number)`: one id per comma-separated piece, each the decimal value of its piece |
| SearchResult.IsFilterQuery | frontend/cine-app/src/components/SearchResult/SearchResult.tsx:245-251 | filter mode is read from the URL when it has `genres` or `countries` and both years; `ReadFilterParams` states the consequences (no filter without a genres or countries parameter, both years present with one) |
| SearchResult.ReadFilterParams | frontend/cine-app/src/components/SearchResult/SearchResult.tsx:242-261 | filter mode iff a genres or countries parameter and both year parameters are present; then the genre ids are the decimal values of the comma-separated pieces, in order (none for an absent or empty parameter), the countries are the pieces of the countries parameter and join back to it (none for an absent or empty one), and the years are the decimal values of their parameters |
| SearchResult.BuildQuery | frontend/cine-app/src/components/SearchResult/SearchResult.tsx:360-399 | the query always has yearFrom and yearTo, has genres iff genres are selected, has countries iff their comma join is non-empty, and no other key |
| SearchResult.IdListReadsBack | frontend/cine-app/src/components/SearchResult/SearchResult.tsx:258-261 | a non-empty comma-joined id list parses back to the same ids |
| SearchResult.SubmittedFiltersReadBack | frontend/cine-app/src/components/SearchResult/SearchResult.tsx:242-399 | the query a submit navigates to is read back by the URL effect as the same selection (an empty country list stays empty) |
| SearchResult.BuildDiscoverRequests | frontend/cine-app/src/components/SearchResult/SearchResult.tsx:187-213 | the loops build a `DiscoverBatch`: exactly pages 1..5 per kind; movie requests use the selected ids, series requests the mapped ids; dates run from `{from}-01-01` to `{to}-12-31`; an origin country appears iff countries are selected, as their comma join |
| SearchResult.DiscoverUrl | frontend/cine-app/src/components/SearchResult/SearchResult.tsx:187-212 | a movie request goes to `discover/movie`, a series request to `discover/tv`; the URL ends with the origin-country parameter exactly when countries are selected, and with the page number otherwise |
| SearchResult.YearOptions | frontend/cine-app/src/components/SearchResult/SearchResult.tsx:524-527 | the year options are every year from the current one down to 1900, each once, newest first |
| SearchResult.AggregatePages | frontend/cine-app/src/components/SearchResult/SearchResult.tsx:220-235 | a result iff every page loaded, and then the concatenation of the pages' `results` in page order, a missing `results` counting as empty |
| SearchResult.SearchResultPage.constructor | frontend/cine-app/src/components/SearchResult/SearchResult.tsx:159-168 | no results, nothing selected, 1990 to the current year, filter mode off, no genre error, trigger 0 |
| SearchResult.SearchResultPage.Partition | frontend/cine-app/src/components/SearchResult/SearchResult.tsx:328-336 | the movie, series and person lists together hold exactly the results |
| SearchResult.SearchResultPage.RestoreDefaultFilter | frontend/cine-app/src/components/SearchResult/SearchResult.tsx:275-282 | the default filter is restored and nothing else changes |
| SearchResult.SearchResultPage.OnLocationChange | frontend/cine-app/src/components/SearchResult/SearchResult.tsx:242-285 | filter parameters: the selection is read from them, results cleared, filter mode on, and the returned requests are the `DiscoverBatch` of that selection; no parameters with filter mode on in the render: defaults restored and the trigger bumped; otherwise nothing changes |
| SearchResult.SearchResultPage.OnFilteredPages | frontend/cine-app/src/components/SearchResult/SearchResult.tsx:215-235 | both filtered lists are stored when every page of both kinds loaded; any failure leaves the store unchanged |
| SearchResult.SearchResultPage.OnSearchEffect | frontend/cine-app/src/components/SearchResult/SearchResult.tsx:288-326 | a slug sends the multi-search request; with filter mode on in the render it first restores the defaults, clears results and the genre error, and empties both filtered lists |
| SearchResult.SearchResultPage.Commit | frontend/cine-app/src/components/SearchResult/SearchResult.tsx:242-326 | the two effects of one commit both read filter mode as rendered, and every combination is stated: a search with filter mode on ends at the default filter with no results, no error and empty stored lists (the trigger bumped if the URL also left filter mode); otherwise the store is untouched and a filter URL (a reload or the navigation after a submit) sets its selection, filter mode and discover requests, a plain URL with filter mode on restores the defaults and bumps the trigger, and anything else changes nothing; a request is sent iff the slug changed and is non-empty |
| SearchResult.SearchResultPage.OnSearchResponse | frontend/cine-app/src/components/SearchResult/SearchResult.tsx:316-320 | a loaded response replaces the results with its `results` (or none); a failure leaves them |
| SearchResult.SearchResultPage.ToggleGenre | frontend/cine-app/src/components/SearchResult/SearchResult.tsx:339-347 | the genre is toggled and the genre error cleared; nothing else changes |
| SearchResult.SearchResultPage.ToggleCountry | frontend/cine-app/src/components/SearchResult/SearchResult.tsx:349-353 | only the country selection changes, by the toggle |
| SearchResult.SearchResultPage.SetYearFrom | frontend/cine-app/src/components/SearchResult/SearchResult.tsx:519-523 | the chosen year becomes the lower bound and nothing else changes |
| SearchResult.SearchResultPage.SetYearTo | frontend/cine-app/src/components/SearchResult/SearchResult.tsx:536-540 | the chosen year becomes the upper bound and nothing else changes |
| SearchResult.SearchResultPage.SubmitFilters | frontend/cine-app/src/components/SearchResult/SearchResult.tsx:356-402 | results cleared and filter mode on before validation; no genres sets the genre error and does not navigate; otherwise it navigates to the built query |
| SearchResult.SearchResultPage.ResetFilters | frontend/cine-app/src/components/SearchResult/SearchResult.tsx:404-440 | defaults restored, genre error cleared, both filtered lists emptied, navigation to the path without a query (which is not filter mode); with a slug the trigger is bumped and the search re-sent |
| HomeTop.NextIndex | frontend/cine-app/src/components/HomeTop/HomeTop.tsx:74-77 | an empty list leaves the index; otherwise the next index wraps from n-1 to 0 and stays below n |
| HomeTop.PrevIndex | frontend/cine-app/src/components/HomeTop/HomeTop.tsx:69-72 | an empty list leaves the index; otherwise the previous index wraps from 0 to n-1 and stays below n |
| HomeTop.StepsUndoEachOther | frontend/cine-app/src/components/HomeTop/HomeTop.tsx:69-77 | a step back undoes a step forward and the reverse |
| HomeTop.NextStepsCompose | frontend/cine-app/src/components/HomeTop/HomeTop.tsx:74-77 | a+b forward steps are a steps followed by b steps |
| HomeTop.NextStepsWithoutWrap | frontend/cine-app/src/components/HomeTop/HomeTop.tsx:74-77 | k forward steps that stay below n add k to the index |
| HomeTop.FullTurn | frontend/cine-app/src/components/HomeTop/HomeTop.tsx:74-77 | n forward steps return to the starting index |
| HomeTop.ClickTarget | frontend/cine-app/src/components/HomeTop/HomeTop.tsx:79-87 | a movie goes to `/movie/{id}/{slug(title)}`; any other item to `/webseries/{id}/{slug(name)}` |
| HomeTop.Carousel.constructor | frontend/cine-app/src/components/HomeTop/HomeTop.tsx:10-11 | empty media and index 0 |
| HomeTop.Carousel.OnTrendingLoaded | frontend/cine-app/src/components/HomeTop/HomeTop.tsx:17-28 | the trending list replaces the media and the index is kept |
| HomeTop.Carousel.GoToPrevious | frontend/cine-app/src/components/HomeTop/HomeTop.tsx:69-72 | the index steps back with wrap-around and stays in range |
| HomeTop.Carousel.GoToNext | frontend/cine-app/src/components/HomeTop/HomeTop.tsx:74-77 | the index steps forward with wrap-around and stays in range |
| HomeTop.Carousel.AutoSlideTick | frontend/cine-app/src/components/HomeTop/HomeTop.tsx:31-38 | the interval tick applies the same wrap rule as `goToNext` |
| MediaDetail.FindTrailer | frontend/cine-app/src/components/MovieDetail/MovieDetail.tsx:67-74 | any result is a "Trailer" from the list; an official trailer in the list makes the result official; nothing iff the list has no trailer |
| MediaDetail.FindTrailerTakesFirstOfficial | frontend/cine-app/src/components/WebSeries/SeriesDetail.tsx:97-104 | the first official trailer is chosen |
| MediaDetail.FindTrailerFallsBackToFirst | frontend/cine-app/src/components/WebSeries/SeriesDetail.tsx:97-104 | without an official trailer, the first trailer is chosen |
| MediaDetail.GetCast | frontend/cine-app/src/components/MovieDetail/MovieDetail.tsx:77-82 | the whole cast with "show all", otherwise its first min(10, n) members in order |
| MediaDetail.GetDirectors | frontend/cine-app/src/components/MovieDetail/MovieDetail.tsx:85-90 | exactly the crew members whose job is "Director" |
| MediaDetail.DirectorsKeepOrder | frontend/cine-app/src/components/WebSeries/SeriesDetail.tsx:115-120 | the directors keep crew order |
| MediaDetail.GetTopReviews | frontend/cine-app/src/components/MovieDetail/MovieDetail.tsx:93-96 | the first min(3, n) reviews in order |
| MediaDetail.ToggledExpansion | frontend/cine-app/src/components/MovieDetail/MovieDetail.tsx:99-104 | the given key flips (absent counts as collapsed); every other key is unchanged |
| MediaDetail.ToggleExpansionTwice | frontend/cine-app/src/components/WebSeries/SeriesDetail.tsx:129-141 | flipping a key twice restores every key's expansion |
| MediaDetail.ReviewText | frontend/cine-app/src/components/MovieDetail/MovieDetail.tsx:456-471 | content over 300 characters that is collapsed shows its first 300 characters and "..."; otherwise it shows in full |
| MediaDetail.HasExpandButton | frontend/cine-app/src/components/MovieDetail/MovieDetail.tsx:462-471 | the expand button shows exactly for content over 300 characters; `ReviewText` and `ReviewTextBounds` state what the text is with and without it |
| MediaDetail.ReviewTextBounds | frontend/cine-app/src/components/WebSeries/SeriesDetail.tsx:672-687 | without the toggle button the text is the same expanded or not; collapsed text is at most 303 characters |
| MovieDetail.RuntimeParts | frontend/cine-app/src/components/MovieDetail/MovieDetail.tsx:61-62 | the hours are the floor of minutes/60 (hours*60 <= minutes < hours*60+60) and the minutes JavaScript's `%`; for a non-negative runtime hours*60+minutes is the runtime with 0 <= minutes < 60 |
| MovieDetail.FormatRuntime | frontend/cine-app/src/components/MovieDetail/MovieDetail.tsx:59-64 | "Unknown" exactly for null or 0; a positive runtime is "{h}h {m}min" with h*60+m equal to it and m < 60 |
| MovieDetail.MovieDetailPage.constructor | frontend/cine-app/src/components/MovieDetail/MovieDetail.tsx:21-25 | no review expanded, cast collapsed |
| MovieDetail.MovieDetailPage.ToggleReviewExpansion | frontend/cine-app/src/components/MovieDetail/MovieDetail.tsx:99-104 | only the given review's expansion flips |
| MovieDetail.MovieDetailPage.ToggleShowAllCast | frontend/cine-app/src/components/MovieDetail/MovieDetail.tsx:411 | "show all cast" flips; the review map is unchanged |
| SeriesDetail.CollectSeasons | frontend/cine-app/src/components/WebSeries/SeriesDetail.tsx:53-65 | a list iff every season 1..n loaded; then one entry per season in ascending order, entry i for season i+1 with that season's episodes |
| SeriesDetail.CountNoun | frontend/cine-app/src/components/WebSeries/SeriesDetail.tsx:227-233 | the noun gains exactly one "s" iff the count is over 1, and is kept unchanged otherwise |
| SeriesDetail.SeriesDetailPage.constructor | frontend/cine-app/src/components/WebSeries/SeriesDetail.tsx:26-33 | nothing expanded, cast collapsed |
| SeriesDetail.SeriesDetailPage.ToggleReviewExpansion | frontend/cine-app/src/components/WebSeries/SeriesDetail.tsx:129-134 | only the given review's expansion flips; the season map and the cast flag are unchanged |
| SeriesDetail.SeriesDetailPage.ToggleAccordion | frontend/cine-app/src/components/WebSeries/SeriesDetail.tsx:136-141 | only the given season's expansion flips; the review map and the cast flag are unchanged |
| SeriesDetail.SeriesDetailPage.ToggleShowAllCast | frontend/cine-app/src/components/WebSeries/SeriesDetail.tsx:627 | "show all cast" flips; both maps are unchanged |
| PersonDetail.CalculateAge | frontend/cine-app/src/components/PersonDetail/PersonDetail.tsx:127-144 | "Unknown" iff there is no birthday; otherwise the completed years at the day of death, or today: that anniversary is on or before the day and the next one after it |
| PersonDetail.AgeIsUnique | frontend/cine-app/src/components/PersonDetail/PersonDetail.tsx:133-141 | only one number of years satisfies that property, so the age is determined by it |
| PersonDetail.OrElse | frontend/cine-app/src/components/PersonDetail/PersonDetail.tsx:147-221 | `a \|\| fallback` with an empty text counting as missing is never empty when the fallback is not |
| PersonDetail.Titled | frontend/cine-app/src/components/PersonDetail/PersonDetail.tsx:151-156 | item i is the i-th kept credit under its defaulted title, one item per kept credit |
| PersonDetail.MovieTitle | frontend/cine-app/src/components/PersonDetail/PersonDetail.tsx:151-156 | never empty: the credit's non-empty title, else "Unknown Title" |
| PersonDetail.TvTitle | frontend/cine-app/src/components/PersonDetail/PersonDetail.tsx:176-181 | never empty: the non-empty name, else the non-empty title, else "Unknown Title" |
| PersonDetail.OtherTitle | frontend/cine-app/src/components/PersonDetail/PersonDetail.tsx:202-207 | never empty: the non-empty title, else the non-empty name, else "Unknown Title" |
| PersonDetail.SortNewestFirst | frontend/cine-app/src/components/PersonDetail/PersonDetail.tsx:159-165 | the sorted list is a permutation of its input in which every item may precede every later one: dated items newest first, undated last |
| PersonDetail.InOrderTotal | frontend/cine-app/src/components/PersonDetail/PersonDetail.tsx:159-165 | the comparator orders any two works one way or the other (undated works last) |
| PersonDetail.InOrderTransitive | frontend/cine-app/src/components/PersonDetail/PersonDetail.tsx:159-165 | the comparator is transitive, so newest-first is a consistent order |
| PersonDetail.DatedBeforeUndated | frontend/cine-app/src/components/PersonDetail/PersonDetail.tsx:159-165 | in a sorted list every dated item comes before every undated one |
| PersonDetail.FullFilmography | frontend/cine-app/src/components/PersonDetail/PersonDetail.tsx:147-165 | a newest-first permutation of the filtered, titled credits |
| PersonDetail.Filmography | frontend/cine-app/src/components/PersonDetail/PersonDetail.tsx:147-221 | nothing without cast credits; otherwise a prefix of the full list, all of it with "show all" and min(20, n) items without |
| PersonDetail.FilmographyShowsItsCategory | frontend/cine-app/src/components/PersonDetail/PersonDetail.tsx:147-221 | a shown list is newest first and holds only credits of its kind from the cast under their defaulted titles |
| PersonDetail.GetMovies | frontend/cine-app/src/components/PersonDetail/PersonDetail.tsx:147-169 | a prefix of the full newest-release-first list of "movie" credits, titled by `title` or "Unknown Title": all of them with "show all" (the same multiset as the titled movie credits), otherwise min(20, n) |
| PersonDetail.GetTVShows | frontend/cine-app/src/components/PersonDetail/PersonDetail.tsx:172-195 | a prefix of the full newest-first-air-date-first list of "tv" credits, titled by `name`, else `title`, else "Unknown Title": all of them with "show all", otherwise min(20, n) |
| PersonDetail.GetOthers | frontend/cine-app/src/components/PersonDetail/PersonDetail.tsx:198-221 | a prefix of the full newest-first list (release date, else first air date) of the credits that are neither, titled by `title`, else `name`, else "Unknown Title": all of them with "show all", otherwise min(20, n) |
| PersonDetail.HasMoreIffCapped | frontend/cine-app/src/components/PersonDetail/PersonDetail.tsx:270-278 | a category has more than 20 credits iff its capped list leaves some out |
| PersonDetail.CategoryCountsAdd | frontend/cine-app/src/components/PersonDetail/PersonDetail.tsx:280-287 | the movie, TV and other counts add up to the cast length |
| SearchBar.Typed | frontend/cine-app/src/components/SearchBar/SearchBar.tsx:26-32 | a new input value reschedules the timer for itself; the same value changes nothing; the query and results stay; the settled invariant is kept |
| SearchBar.Fired | frontend/cine-app/src/components/SearchBar/SearchBar.tsx:27-29 | the timer copies the input into the debounced query, and no timer remains pending |
| SearchBar.TypedAllKeepsQuery | frontend/cine-app/src/components/SearchBar/SearchBar.tsx:26-32 | typing without the timer firing never changes the debounced query |
| SearchBar.DebounceKeepsLastValue | frontend/cine-app/src/components/SearchBar/SearchBar.tsx:26-32 | after a burst of typing, the timer delivers only the last value |
| SearchBar.Cleared | frontend/cine-app/src/components/SearchBar/SearchBar.tsx:53-95 | clearing empties the input and the results and keeps the debounced query |
| SearchBar.SearchBarView.constructor | frontend/cine-app/src/components/SearchBar/SearchBar.tsx:16-32 | empty input, query and results, with the first timer pending |
| SearchBar.SearchBarView.OnMount | frontend/cine-app/src/components/SearchBar/SearchBar.tsx:34-51 | the search effect's first run sends the request for the current debounced query, the empty query after construction |
| SearchBar.SearchBarView.OnInputChange | frontend/cine-app/src/components/SearchBar/SearchBar.tsx:119 | the change event types the value |
| SearchBar.SearchBarView.OnTimerFires | frontend/cine-app/src/components/SearchBar/SearchBar.tsx:26-51 | the query catches up with the input; a request for it is sent iff the query changed |
| SearchBar.SearchBarView.OnSearchResponse | frontend/cine-app/src/components/SearchBar/SearchBar.tsx:39-45 | a loaded response's results replace the stored results; a failure changes nothing |
| SearchBar.SearchBarView.OnMouseDown | frontend/cine-app/src/components/SearchBar/SearchBar.tsx:53-66 | a mousedown outside clears input and results; inside it changes nothing |
| SearchBar.SearchBarView.OnMovieClick | frontend/cine-app/src/components/SearchBar/SearchBar.tsx:76-81 | navigates to `/movie/{id}/{slug(title)}` and clears |
| SearchBar.SearchBarView.OnSeriesClick | frontend/cine-app/src/components/SearchBar/SearchBar.tsx:83-88 | navigates to `/webseries/{id}/{slug(name)}` and clears |
| SearchBar.SearchBarView.OnPersonClick | frontend/cine-app/src/components/SearchBar/SearchBar.tsx:90-95 | navigates to `/person/{id}/{slug(name)}` and clears |
| SearchBar.SearchBarView.OnKeyDown | frontend/cine-app/src/components/SearchBar/SearchBar.tsx:97-106 | navigates to `/results/{slug}` and clears iff the key is Enter and the query is non-empty; otherwise nothing changes |
| SearchBar.SearchBarView.OnSearchClick | frontend/cine-app/src/components/SearchBar/SearchBar.tsx:108-113 | always navigates to `/results/{slug}`, even for an empty query, and clears |
| SearchBar.ResultsPath | frontend/cine-app/src/components/SearchBar/SearchBar.tsx:108-110 | the results path is `/results/` followed by exactly the slug of the query |
| SearchBar.SearchBarView.DropdownVisible | frontend/cine-app/src/components/SearchBar/SearchBar.tsx:146 | the dropdown shows iff there are stored results, iff one of its three sections has an entry |
| SearchBar.ClearedHidesDropdown | frontend/cine-app/src/components/SearchBar/SearchBar.tsx:79-112 | after any navigation or outside click, all three dropdown sections are empty |
| FilteredResults.ClearIsIdempotent | frontend/cine-app/src/Redux/FilteredResultsSlice/FilteredResultsSlice.tsx:33-38 | clearing twice is clearing once, and clearing keeps `isLoading` |
| FilteredResults.FilteredResultsStore.constructor | frontend/cine-app/src/Redux/FilteredResultsSlice/FilteredResultsSlice.tsx:12-18 | empty lists, filters not applied, not loading, no error |
| FilteredResults.FilteredResultsStore.SetFilteredMovies | frontend/cine-app/src/Redux/FilteredResultsSlice/FilteredResultsSlice.tsx:24-26 | only the movie list changes, to the payload |
| FilteredResults.FilteredResultsStore.SetFilteredSeries | frontend/cine-app/src/Redux/FilteredResultsSlice/FilteredResultsSlice.tsx:27-29 | only the series list changes, to the payload |
| FilteredResults.FilteredResultsStore.SetFiltersApplied | frontend/cine-app/src/Redux/FilteredResultsSlice/FilteredResultsSlice.tsx:30-32 | only `filtersApplied` changes |
| FilteredResults.FilteredResultsStore.ClearFilteredResults | frontend/cine-app/src/Redux/FilteredResultsSlice/FilteredResultsSlice.tsx:33-38 | both lists emptied, filters not applied, no error, `isLoading` untouched |
| FilteredResults.FilteredResultsStore.SetLoading | frontend/cine-app/src/Redux/FilteredResultsSlice/FilteredResultsSlice.tsx:39-41 | only `isLoading` changes |
| FilteredResults.FilteredResultsStore.SetError | frontend/cine-app/src/Redux/FilteredResultsSlice/FilteredResultsSlice.tsx:42-44 | only `error` changes |
| DarkTheme.ThemeName | frontend/cine-app/src/Redux/DarkThemeSlice/DarkTheme.tsx:5-7 | the value is always "light" or "dark", "dark" exactly for the dark theme |
| DarkTheme.InitialTheme | frontend/cine-app/src/Redux/DarkThemeSlice/DarkTheme.tsx:3-11 | dark iff the saved "theme" entry is "dark" |
| DarkTheme.Toggled | frontend/cine-app/src/Redux/DarkThemeSlice/DarkTheme.tsx:18 | toggling always changes the theme |
| DarkTheme.ToggleTwice | frontend/cine-app/src/Redux/DarkThemeSlice/DarkTheme.tsx:18 | toggling twice restores it |
| DarkTheme.SavedThemeReadsBack | frontend/cine-app/src/Redux/DarkThemeSlice/DarkTheme.tsx:3-19 | a saved theme is what the next start reads |
| DarkTheme.ThemeStore.constructor | frontend/cine-app/src/Redux/DarkThemeSlice/DarkTheme.tsx:3-11 | the initial theme is read from storage |
| DarkTheme.ThemeStore.DarkToggle | frontend/cine-app/src/Redux/DarkThemeSlice/DarkTheme.tsx:17-20 | the theme swaps and the storage's "theme" entry becomes the new value, nothing else in storage changing |
| Text.Slug | frontend/cine-app/src/components/SearchBar/SearchBar.tsx:77 | `toLowerCase().replace(/\s+/g, "-")` is never longer than its input |
| Text.Lower | frontend/cine-app/src/components/SearchResult/SearchResult.tsx:132-133 | `toLowerCase` on one character: an upper-case ASCII letter becomes a different, lower-case letter; every other character is kept |
| Text.SlugCharacters | frontend/cine-app/src/components/SearchBar/SearchBar.tsx:76-95 | a slug holds no whitespace and no upper-case letter |
| Text.SlugOfTwoWords | frontend/cine-app/src/components/SearchResult/SearchResult.tsx:444 | a whitespace run between two words becomes exactly one "-" and the words are lower-cased |
| Text.SlugOfRun | frontend/cine-app/src/components/HomeTop/HomeTop.tsx:79-87 | a leading whitespace run becomes one "-" |
| Text.SlugOfSpaceFree | frontend/cine-app/src/components/SearchBar/SearchBar.tsx:100 | text without whitespace just lower-cases |
| Text.SlugIdempotent | frontend/cine-app/src/components/SearchBar/SearchBar.tsx:109 | a slug of a slug is the slug |
| Text.NatToString | frontend/cine-app/src/components/SearchResult/SearchResult.tsx:379 | the decimal rendering of a number is a non-empty numeral |
| Text.ParseOfNatToString | frontend/cine-app/src/components/SearchResult/SearchResult.tsx:258 | `Number` reads a rendered number back |
| Text.ParseDecimal | frontend/cine-app/src/components/SearchResult/SearchResult.tsx:258 | `Number` on a string of decimal digits; `ParseOfNatToString` proves it reads a rendered number back |
| Text.JsRem | frontend/cine-app/src/components/MovieDetail/MovieDetail.tsx:62 | JavaScript's `%` for a positive divisor: the Euclidean remainder for x >= 0; for x < 0 the value x - y*q with q the quotient truncated toward zero, between -y and 0 |
| Text.JoinOfSplit | frontend/cine-app/src/components/SearchResult/SearchResult.tsx:259 | joining the pieces of a split gives back the text |
| Text.Split | frontend/cine-app/src/components/SearchResult/SearchResult.tsx:258 | `split(",")` gives at least one piece and no piece holds the separator; `JoinOfSplit` proves the pieces are the text's own |
| Text.Join | frontend/cine-app/src/components/SearchResult/SearchResult.tsx:384 | `join(",")` puts the separator between consecutive pieces; `SplitOfJoin` proves splitting gives the pieces back |
| Text.SplitOfJoin | frontend/cine-app/src/components/SearchResult/SearchResult.tsx:384 | splitting a join of comma-free pieces gives back the pieces |
| Text.ContainsLowered | frontend/cine-app/src/components/SearchResult/SearchResult.tsx:132-133 | text that holds another verbatim still holds it after both are lower-cased |
| Common.Filter | frontend/cine-app/src/components/MovieDetail/MovieDetail.tsx:85-90 | `filter` keeps exactly the elements that satisfy the predicate and is never longer |
| Common.FilterAppend | frontend/cine-app/src/components/SearchResult/SearchResult.tsx:345 | `filter` keeps relative order |
| Common.Take | frontend/cine-app/src/components/MovieDetail/MovieDetail.tsx:81 | `slice(0, n)` is the prefix of length min(n, length) |
| Common.Find | frontend/cine-app/src/components/SearchResult/SearchResult.tsx:128 | `find` returns an element that satisfies the predicate, nothing iff none does |
| Common.FindFirst | frontend/cine-app/src/components/SearchResult/SearchResult.tsx:128-135 | the first satisfying index, with no earlier one satisfying |
| Common.FlattenAppend | frontend/cine-app/src/components/SearchResult/SearchResult.tsx:225-229 | flattening a run of pages is the concatenation of flattening its parts, in page order |
| Common.FlattenLength | frontend/cine-app/src/components/SearchResult/SearchResult.tsx:225-229 | flattening keeps every element of every page |
| Common.Payloads | frontend/cine-app/src/components/SearchResult/SearchResult.tsx:226-227 | one payload per page, each page's `results` or empty |

## Left out

- Network I/O, `Promise.all` and the order in which responses arrive: responses are parameters
  of the methods that handle them, so the stale-response race (an older search answering after
  a newer one) is not modelled.
- Timers and DOM listeners: the 500 ms debounce is the pair of events `OnInputChange` and
  `OnTimerFires`; the 7-second carousel interval is `AutoSlideTick`; its hover pause and the
  `document` listener registration are left out, and `OnMouseDown` takes "inside the bar" as a
  parameter.
- Rendering, animation, the loader, placeholders and locale date formatting.
- Percent-encoding of the query string: requests are modelled as the text of their URL, and
  `URLSearchParams` as a map from parameter names to values.
- `toLowerCase` beyond ASCII: `Lower` changes only `A`-`Z`.
- GenreFacts: the concrete mapping is proved for 28, 12 and 16 only; the other movie ids (14 to
  10765, 10752 to 10768, the shared names, and 878, 36, 27, 10402, 10749 and 53 to nothing) are
  covered by `TvGenreForBounds` but not evaluated, because each case costs the solver a
  substring search over literal tables.
- PersonDetail.SortNewestFirst: the order among undated items is the model's stable choice. The
  source comparator returns 1 whenever its first argument is undated, so it is not a consistent
  comparator there and the engine's order for undated items is unspecified.
- PersonDetail.CalculateAge: dates are taken as already read by `getFullYear`, `getMonth` and
  `getDate`; time zones and invalid dates are left out.
- SearchBar.SearchBarView.OnSearchResponse: a loaded response without `results` stores
  `undefined` in the source and breaks the next render; the model takes a failed request as
  the only other outcome.
- The store registration in `Redux/Store.tsx` lacks the filtered-results and search-data
  reducers that the screens read; the model wires the screens to their stores directly.
- The route slug of the result screen is a string in which "" stands for a missing slug.
- `SeriesDetail.tsx` repeats `findTrailer`, `getCast`, `getDirectors`, `getTopReviews`,
  `toggleReviewExpansion` and the review truncation of `MovieDetail.tsx` verbatim; they are
  modelled once in `MediaDetail`.
- The single-field slices (seasons, popular movies and series, search data, movie id) only
  overwrite one field and are not modelled beyond the search bar's stored results.
- SearchResult.ReadFilterParams: requires every genre piece and both years to be plain decimal
  digit strings. `Number()` also reads signs, surrounding whitespace, exponents, hexadecimal and
  fractions, and gives NaN for anything else; those inputs are not modelled.
- MediaDetail.ReviewText: the 300-character limit and the cut count characters, whereas
  JavaScript's `length` and `substring` count UTF-16 code units, so text with characters outside
  the Basic Multilingual Plane (emoji) is cut later in the model than on the page.
