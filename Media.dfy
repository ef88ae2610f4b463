/** The search result records of the media database (a tagged union on `media_type`), the
    three-way partition the result screens apply to them, and the detail-page routes. */
module Media {

  import opened Common
  import opened Text

  datatype MovieInfo = MovieInfo(id: nat, title: string, releaseDate: Option<string>)
  datatype SeriesInfo = SeriesInfo(id: nat, name: string, firstAirDate: Option<string>)
  datatype PersonInfo = PersonInfo(id: nat, name: string)

  /** One record of a multi-type search; its variant is the record's `media_type`. */
  datatype SearchItem =
    | Movie(movie: MovieInfo)
    | Tv(series: SeriesInfo)
    | Person(person: PersonInfo)

  /** The `media_type` discriminant tag of a record. */
  function MediaType(item: SearchItem): (r: string)
    ensures r == "movie" <==> item.Movie?
    ensures r == "tv" <==> item.Tv?
    ensures r == "person" <==> item.Person?
  {
    match item
    case Movie(_) => "movie"
    case Tv(_) => "tv"
    case Person(_) => "person"
  }

  function Id(item: SearchItem): nat
  {
    match item
    case Movie(m) => m.id
    case Tv(s) => s.id
    case Person(p) => p.id
  }

  /** `results.filter(item => item.media_type === "movie")` and its two siblings. */
  function MoviesOf(results: seq<SearchItem>): seq<SearchItem>
  {
    Filter(results, (item: SearchItem) => MediaType(item) == "movie")
  }

  function SeriesOf(results: seq<SearchItem>): seq<SearchItem>
  {
    Filter(results, (item: SearchItem) => MediaType(item) == "tv")
  }

  function PersonsOf(results: seq<SearchItem>): seq<SearchItem>
  {
    Filter(results, (item: SearchItem) => MediaType(item) == "person")
  }

  /** Each bucket holds only its own kind of record, so no record lands in two buckets. */
  lemma PartitionIsDisjoint(results: seq<SearchItem>)
    ensures forall x :: x in MoviesOf(results) ==> x.Movie? && x in results
    ensures forall x :: x in SeriesOf(results) ==> x.Tv? && x in results
    ensures forall x :: x in PersonsOf(results) ==> x.Person? && x in results
  {
  }

  /** The buckets together hold each record exactly as often as the results do, so their sizes add
      up to the number of results. */
  lemma {:induction false} PartitionIsExact(results: seq<SearchItem>)
    ensures multiset(MoviesOf(results)) + multiset(SeriesOf(results)) + multiset(PersonsOf(results))
         == multiset(results)
    ensures |MoviesOf(results)| + |SeriesOf(results)| + |PersonsOf(results)| == |results|
  {
    if results != [] {
      PartitionIsExact(results[1..]);
      assert results == [results[0]] + results[1..];
    }
  }

  /** Each bucket keeps the relative order of the results: partitioning a concatenation gives the
      concatenation of the partitions. */
  lemma PartitionKeepsOrder(a: seq<SearchItem>, b: seq<SearchItem>)
    ensures MoviesOf(a + b) == MoviesOf(a) + MoviesOf(b)
    ensures SeriesOf(a + b) == SeriesOf(a) + SeriesOf(b)
    ensures PersonsOf(a + b) == PersonsOf(a) + PersonsOf(b)
  {
    FilterAppend(a, b, (item: SearchItem) => MediaType(item) == "movie");
    FilterAppend(a, b, (item: SearchItem) => MediaType(item) == "tv");
    FilterAppend(a, b, (item: SearchItem) => MediaType(item) == "person");
  }

  /** `/movie/{id}/{slug(title)}`. */
  function MoviePath(id: nat, title: string): (r: string)
    ensures |r| > 7 && r[..7] == "/movie/"
    ensures |r| >= 8 + |Slug(title)| && r[|r| - |Slug(title)| - 1..] == "/" + Slug(title)
    ensures var digits := r[7..|r| - |Slug(title)| - 1];
            IsNumeral(digits) && ParseDecimal(digits) == id
  {
    var digits := NatToString(id);
    ParseOfNatToString(id);
    ThreeParts("/movie/", digits, "/" + Slug(title));
    "/movie/" + digits + ("/" + Slug(title))
  }

  /** `/webseries/{id}/{slug(name)}`. */
  function SeriesPath(id: nat, name: string): (r: string)
    ensures |r| > 11 && r[..11] == "/webseries/"
    ensures |r| >= 12 + |Slug(name)| && r[|r| - |Slug(name)| - 1..] == "/" + Slug(name)
    ensures var digits := r[11..|r| - |Slug(name)| - 1];
            IsNumeral(digits) && ParseDecimal(digits) == id
  {
    var digits := NatToString(id);
    ParseOfNatToString(id);
    ThreeParts("/webseries/", digits, "/" + Slug(name));
    "/webseries/" + digits + ("/" + Slug(name))
  }

  /** `/person/{id}/{slug(name)}`. */
  function PersonPath(id: nat, name: string): (r: string)
    ensures |r| > 8 && r[..8] == "/person/"
    ensures |r| >= 9 + |Slug(name)| && r[|r| - |Slug(name)| - 1..] == "/" + Slug(name)
    ensures var digits := r[8..|r| - |Slug(name)| - 1];
            IsNumeral(digits) && ParseDecimal(digits) == id
  {
    var digits := NatToString(id);
    ParseOfNatToString(id);
    ThreeParts("/person/", digits, "/" + Slug(name));
    "/person/" + digits + ("/" + Slug(name))
  }

  /** `search/multi` for a free-text query. */
  function SearchUrl(apiKey: string, query: string): (r: string)
    ensures |r| >= 27 + |query| && r[|r| - 20..] == "&include_adult=false"
    ensures r[|r| - 27 - |query|..|r| - 20] == "&query=" + query
  {
    var head := "https://api.themoviedb.org/3/search/multi?api_key=" + apiKey;
    ThreeParts(head, "&query=" + query, "&include_adult=false");
    head + ("&query=" + query) + "&include_adult=false"
  }
}
